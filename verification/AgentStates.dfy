/** The agent state and its checkpoint dictionary (state.py). */
module AgentStates {
  import opened Values

  datatype AgentState = AgentState(
    sessionId: string,
    workflowRunId: string,
    agentRunId: string,
    userMessage: string,
    currentStep: string,
    latestSummaryId: Value,
    loadedSessionHistoryIds: seq<Value>,
    loadedMemoryIds: seq<Value>,
    loadedSkillIds: seq<Value>,
    toolCallIds: seq<Value>,
    requestedToolName: Value,
    sourceType: string,
    needCompaction: bool,
    tokenEstimate: int,
    guardResult: Value,
    approvalRequestId: Value,
    finalResponse: Value,
    responseMode: string,
    llmMessages: seq<Value>,
    contextMetadata: Fields)

  /** An entry of a checkpoint dictionary: None where the dictionary has no such key. */
  type Entry = Option<Value>

  /** A checkpoint dictionary, one entry per attribute; its other keys are never read. */
  datatype Checkpoint = Checkpoint(
    sessionId: Entry,
    workflowRunId: Entry,
    agentRunId: Entry,
    userMessage: Entry,
    currentStep: Entry,
    latestSummaryId: Entry,
    loadedSessionHistoryIds: Entry,
    loadedMemoryIds: Entry,
    loadedSkillIds: Entry,
    toolCallIds: Entry,
    requestedToolName: Entry,
    sourceType: Entry,
    needCompaction: Entry,
    tokenEstimate: Entry,
    guardResult: Entry,
    approvalRequestId: Entry,
    finalResponse: Entry,
    responseMode: Entry,
    llmMessages: Entry,
    contextMetadata: Entry)

  /** What `from_checkpoint_state` raises on a dictionary it cannot read: KeyError, or a conversion's own error. */
  datatype LoadError = MissingKey | NotConvertible

  /** `to_checkpoint_state`. */
  function ToCheckpoint(s: AgentState): Checkpoint {
    Checkpoint(
      Some(Str(s.sessionId)),
      Some(Str(s.workflowRunId)),
      Some(Str(s.agentRunId)),
      Some(Str(s.userMessage)),
      Some(Str(s.currentStep)),
      Some(s.latestSummaryId),
      Some(List(s.loadedSessionHistoryIds)),
      Some(List(s.loadedMemoryIds)),
      Some(List(s.loadedSkillIds)),
      Some(List(s.toolCallIds)),
      Some(s.requestedToolName),
      Some(Str(s.sourceType)),
      Some(Bool(s.needCompaction)),
      Some(Int(s.tokenEstimate)),
      Some(s.guardResult),
      Some(s.approvalRequestId),
      Some(s.finalResponse),
      Some(Str(s.responseMode)),
      Some(List(s.llmMessages)),
      Some(Dict(s.contextMetadata)))
  }

  /** The text of a value that is not a string; no value shows as the empty text. */
  type Shown = s: string | s != "" witness "None"

  /**
   What the language's own conversions answer: `str`, the order of a dictionary's keys, `int` of a text, `dict` of a
   list.
   */
  datatype Coercions = Coercions(
    shown: Value -> Shown,
    keys: Fields -> seq<Value>,
    number: string -> Option<int>,
    pairs: seq<Value> -> Option<Fields>)

  function TextOf(c: Coercions, v: Value): string {
    if v.Str? then v.s else c.shown(v)
  }

  function Letters(s: string): (r: seq<Value>)
    ensures |r| == |s|
  {
    seq(|s|, i requires 0 <= i < |s| => Str([s[i]]))
  }

  /** `state.get(key) or default`, converted to each kind of attribute; None when the conversion raises. */
  function TextOr(c: Coercions, e: Entry, default: string): string {
    var v := e.GetOr(Null);
    if !Truthy(v) then default else TextOf(c, v)
  }

  function ListOr(c: Coercions, e: Entry): Option<seq<Value>> {
    var v := e.GetOr(Null);
    if !Truthy(v) then Some([])
    else
      match v
      case List(items) => Some(items)
      case Str(s) => Some(Letters(s))
      case Dict(fields) => Some(c.keys(fields))
      case _ => None
  }

  function BoolOr(e: Entry): bool {
    Truthy(e.GetOr(Null))
  }

  function IntOr(c: Coercions, e: Entry): Option<int> {
    var v := e.GetOr(Null);
    if !Truthy(v) then Some(0)
    else
      match v
      case Int(n) => Some(n)
      case Bool(_) => Some(1)
      case Str(s) => c.number(s)
      case _ => None
  }

  function FieldsOr(c: Coercions, e: Entry): Option<Fields> {
    var v := e.GetOr(Null);
    if !Truthy(v) then Some(map[])
    else
      match v
      case Dict(fields) => Some(fields)
      case List(items) => c.pairs(items)
      case _ => None
  }

  predicate Identified(d: Checkpoint) {
    d.sessionId.Some? && d.workflowRunId.Some? && d.agentRunId.Some?
  }

  /** Every conversion of an entry succeeds. */
  predicate Convertible(c: Coercions, d: Checkpoint) {
    && ListOr(c, d.loadedSessionHistoryIds).Some?
    && ListOr(c, d.loadedMemoryIds).Some?
    && ListOr(c, d.loadedSkillIds).Some?
    && ListOr(c, d.toolCallIds).Some?
    && ListOr(c, d.llmMessages).Some?
    && IntOr(c, d.tokenEstimate).Some?
    && FieldsOr(c, d.contextMetadata).Some?
  }

  /** `from_checkpoint_state`. */
  function FromCheckpoint(c: Coercions, d: Checkpoint): Result<AgentState, LoadError> {
    if !Identified(d) then Err(MissingKey)
    else if !Convertible(c, d) then Err(NotConvertible)
    else Ok(AgentState(
              TextOf(c, d.sessionId.value),
              TextOf(c, d.workflowRunId.value),
              TextOf(c, d.agentRunId.value),
              TextOr(c, d.userMessage, ""),
              TextOr(c, d.currentStep, "build_context"),
              d.latestSummaryId.GetOr(Null),
              ListOr(c, d.loadedSessionHistoryIds).value,
              ListOr(c, d.loadedMemoryIds).value,
              ListOr(c, d.loadedSkillIds).value,
              ListOr(c, d.toolCallIds).value,
              d.requestedToolName.GetOr(Null),
              TextOr(c, d.sourceType, "agent_chat"),
              BoolOr(d.needCompaction),
              IntOr(c, d.tokenEstimate).value,
              d.guardResult.GetOr(Null),
              d.approvalRequestId.GetOr(Null),
              d.finalResponse.GetOr(Null),
              TextOr(c, d.responseMode, "deterministic_stub"),
              ListOr(c, d.llmMessages).value,
              FieldsOr(c, d.contextMetadata).value))
  }

  function OverlayEntry(before: Entry, change: Entry): Entry {
    if change.Some? then change else before
  }

  /** `data.update(changes)`. */
  function Overlay(d: Checkpoint, changes: Checkpoint): Checkpoint {
    Checkpoint(
      OverlayEntry(d.sessionId, changes.sessionId),
      OverlayEntry(d.workflowRunId, changes.workflowRunId),
      OverlayEntry(d.agentRunId, changes.agentRunId),
      OverlayEntry(d.userMessage, changes.userMessage),
      OverlayEntry(d.currentStep, changes.currentStep),
      OverlayEntry(d.latestSummaryId, changes.latestSummaryId),
      OverlayEntry(d.loadedSessionHistoryIds, changes.loadedSessionHistoryIds),
      OverlayEntry(d.loadedMemoryIds, changes.loadedMemoryIds),
      OverlayEntry(d.loadedSkillIds, changes.loadedSkillIds),
      OverlayEntry(d.toolCallIds, changes.toolCallIds),
      OverlayEntry(d.requestedToolName, changes.requestedToolName),
      OverlayEntry(d.sourceType, changes.sourceType),
      OverlayEntry(d.needCompaction, changes.needCompaction),
      OverlayEntry(d.tokenEstimate, changes.tokenEstimate),
      OverlayEntry(d.guardResult, changes.guardResult),
      OverlayEntry(d.approvalRequestId, changes.approvalRequestId),
      OverlayEntry(d.finalResponse, changes.finalResponse),
      OverlayEntry(d.responseMode, changes.responseMode),
      OverlayEntry(d.llmMessages, changes.llmMessages),
      OverlayEntry(d.contextMetadata, changes.contextMetadata))
  }

  /** `with_updates`: the changes overlay the checkpoint dictionary, which is read back. */
  function WithUpdates(c: Coercions, s: AgentState, changes: Checkpoint): Result<AgentState, LoadError> {
    FromCheckpoint(c, Overlay(ToCheckpoint(s), changes))
  }

  /** States whose defaulted texts are not empty. */
  predicate Normalised(s: AgentState) {
    s.currentStep != "" && s.sourceType != "" && s.responseMode != ""
  }

  function Normalise(s: AgentState): AgentState {
    s.(currentStep := if s.currentStep == "" then "build_context" else s.currentStep,
       sourceType := if s.sourceType == "" then "agent_chat" else s.sourceType,
       responseMode := if s.responseMode == "" then "deterministic_stub" else s.responseMode)
  }

  /**
   Saving and loading fills in the empty defaulted texts and changes nothing else: exactly the normalised states
   survive.
   */
  lemma RoundTrip(c: Coercions, s: AgentState)
    ensures FromCheckpoint(c, ToCheckpoint(s)) == Ok(Normalise(s))
    ensures FromCheckpoint(c, ToCheckpoint(s)) == Ok(s) <==> Normalised(s)
  {
    var d := ToCheckpoint(s);
    assert Convertible(c, d);
    assert FieldsOr(c, d.contextMetadata) == Some(s.contextMetadata);
    assert ListOr(c, d.llmMessages) == Some(s.llmMessages);
  }

  /** Every state read from a dictionary is normalised, and saving it again loads the same state. */
  lemma LoadedIsStable(c: Coercions, d: Checkpoint)
    requires FromCheckpoint(c, d).Ok?
    ensures Normalised(FromCheckpoint(c, d).value)
    ensures FromCheckpoint(c, ToCheckpoint(FromCheckpoint(c, d).value)) == FromCheckpoint(c, d)
  {
    RoundTrip(c, FromCheckpoint(c, d).value);
  }

  lemma OverlayAssociates(d: Checkpoint, first: Checkpoint, second: Checkpoint)
    ensures Overlay(d, Overlay(first, second)) == Overlay(Overlay(d, first), second)
  {
  }

  /** What a later change overlays reads the same on an entry and on the value that entry was read as. */
  lemma EntryReadsBack(c: Coercions, e: Entry, change: Entry, default: string)
    ensures TextOr(c, OverlayEntry(Some(Str(TextOr(c, e, default))), change), default) ==
            TextOr(c, OverlayEntry(e, change), default)
    ensures e.Some? ==>
            TextOf(c, OverlayEntry(Some(Str(TextOf(c, e.value))), change).value) ==
              TextOf(c, OverlayEntry(e, change).value)
    ensures ListOr(c, e).Some? ==>
              ListOr(c, OverlayEntry(Some(List(ListOr(c, e).value)), change)) == ListOr(c, OverlayEntry(e, change))
    ensures BoolOr(OverlayEntry(Some(Bool(BoolOr(e))), change)) == BoolOr(OverlayEntry(e, change))
    ensures IntOr(c, e).Some? ==>
              IntOr(c, OverlayEntry(Some(Int(IntOr(c, e).value)), change)) == IntOr(c, OverlayEntry(e, change))
    ensures FieldsOr(c, e).Some? ==>
              FieldsOr(c, OverlayEntry(Some(Dict(FieldsOr(c, e).value)), change)) ==
                FieldsOr(c, OverlayEntry(e, change))
  {
  }

  /** Two dictionaries whose entries are all read the same. */
  predicate SameTexts(c: Coercions, d: Checkpoint, e: Checkpoint) {
    && TextOr(c, d.userMessage, "") == TextOr(c, e.userMessage, "")
    && TextOr(c, d.currentStep, "build_context") == TextOr(c, e.currentStep, "build_context")
    && TextOr(c, d.sourceType, "agent_chat") == TextOr(c, e.sourceType, "agent_chat")
    && TextOr(c, d.responseMode, "deterministic_stub") == TextOr(c, e.responseMode, "deterministic_stub")
  }

  predicate SameCollections(c: Coercions, d: Checkpoint, e: Checkpoint) {
    && ListOr(c, d.loadedSessionHistoryIds) == ListOr(c, e.loadedSessionHistoryIds)
    && ListOr(c, d.loadedMemoryIds) == ListOr(c, e.loadedMemoryIds)
    && ListOr(c, d.loadedSkillIds) == ListOr(c, e.loadedSkillIds)
    && ListOr(c, d.toolCallIds) == ListOr(c, e.toolCallIds)
    && ListOr(c, d.llmMessages) == ListOr(c, e.llmMessages)
    && BoolOr(d.needCompaction) == BoolOr(e.needCompaction)
    && IntOr(c, d.tokenEstimate) == IntOr(c, e.tokenEstimate)
    && FieldsOr(c, d.contextMetadata) == FieldsOr(c, e.contextMetadata)
  }

  predicate SameRaw(c: Coercions, d: Checkpoint, e: Checkpoint) {
    && (Identified(d) <==> Identified(e))
    && (Identified(d) && Identified(e) ==>
          && TextOf(c, d.sessionId.value) == TextOf(c, e.sessionId.value)
          && TextOf(c, d.workflowRunId.value) == TextOf(c, e.workflowRunId.value)
          && TextOf(c, d.agentRunId.value) == TextOf(c, e.agentRunId.value))
    && d.latestSummaryId.GetOr(Null) == e.latestSummaryId.GetOr(Null)
    && d.requestedToolName.GetOr(Null) == e.requestedToolName.GetOr(Null)
    && d.guardResult.GetOr(Null) == e.guardResult.GetOr(Null)
    && d.approvalRequestId.GetOr(Null) == e.approvalRequestId.GetOr(Null)
    && d.finalResponse.GetOr(Null) == e.finalResponse.GetOr(Null)
  }

  lemma SameReadingLoadsSame(c: Coercions, d: Checkpoint, e: Checkpoint)
    requires SameTexts(c, d, e) && SameCollections(c, d, e) && SameRaw(c, d, e)
    ensures FromCheckpoint(c, d) == FromCheckpoint(c, e)
  {
    assert Convertible(c, d) <==> Convertible(c, e);
  }

  lemma ReadBackThenOverlay(c: Coercions, d: Checkpoint, second: Checkpoint)
    requires FromCheckpoint(c, d).Ok?
    ensures FromCheckpoint(c, Overlay(ToCheckpoint(FromCheckpoint(c, d).value), second)) ==
            FromCheckpoint(c, Overlay(d, second))
  {
    hide TextOf, TextOr, ListOr, BoolOr, IntOr, FieldsOr;
    var m := FromCheckpoint(c, d).value;
    var e, f := Overlay(ToCheckpoint(m), second), Overlay(d, second);
    assert SameTexts(c, e, f) by {
      EntryReadsBack(c, d.userMessage, second.userMessage, "");
      EntryReadsBack(c, d.currentStep, second.currentStep, "build_context");
      EntryReadsBack(c, d.sourceType, second.sourceType, "agent_chat");
      EntryReadsBack(c, d.responseMode, second.responseMode, "deterministic_stub");
    }
    assert SameCollections(c, e, f) by {
      EntryReadsBack(c, d.loadedSessionHistoryIds, second.loadedSessionHistoryIds, "");
      EntryReadsBack(c, d.loadedMemoryIds, second.loadedMemoryIds, "");
      EntryReadsBack(c, d.loadedSkillIds, second.loadedSkillIds, "");
      EntryReadsBack(c, d.toolCallIds, second.toolCallIds, "");
      EntryReadsBack(c, d.llmMessages, second.llmMessages, "");
      EntryReadsBack(c, d.needCompaction, second.needCompaction, "");
      EntryReadsBack(c, d.tokenEstimate, second.tokenEstimate, "");
      EntryReadsBack(c, d.contextMetadata, second.contextMetadata, "");
    }
    assert SameRaw(c, e, f) by {
      EntryReadsBack(c, d.sessionId, second.sessionId, "");
      EntryReadsBack(c, d.workflowRunId, second.workflowRunId, "");
      EntryReadsBack(c, d.agentRunId, second.agentRunId, "");
    }
    SameReadingLoadsSame(c, e, f);
  }

  /** Two updates in a row are one update with the merged changes. */
  lemma UpdatesCompose(c: Coercions, s: AgentState, first: Checkpoint, second: Checkpoint)
    requires WithUpdates(c, s, first).Ok?
    ensures WithUpdates(c, WithUpdates(c, s, first).value, second) == WithUpdates(c, s, Overlay(first, second))
  {
    OverlayAssociates(ToCheckpoint(s), first, second);
    ReadBackThenOverlay(c, Overlay(ToCheckpoint(s), first), second);
  }
}
