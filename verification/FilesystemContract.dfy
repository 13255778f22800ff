/**
 The filesystem completion contract (graph_factory.py): runtime-owned metadata that says a write must still follow.
 It is armed by a coarse recovery, upgraded by a read, and cleared by a copy or rename.
 */
module FilesystemContract {
  import opened Values
  import opened Text

  const CONTRACT_KEY := "filesystem_completion_contract"

  // ----- reading payloads -----

  /** `str(value or "")` for a value; `show` renders the values that are not strings. */
  function Shown(show: Value -> string, v: Value): string {
    if !Truthy(v) then "" else if v.Str? then v.s else show(v)
  }

  /** Python's `or`, left to right. */
  function Or(a: Value, b: Value): Value {
    if Truthy(a) then a else b
  }

  function AsDict(v: Value): Fields {
    if v.Dict? then v.fields else map[]
  }

  function Nested(payload: Fields): (Fields, Fields) {
    var result := AsDict(Get(payload, "result"));
    (result, AsDict(Get(result, "result")))
  }

  function FirstText(show: Value -> string, values: seq<Value>): string {
    if values == [] then ""
    else
      var text := Strip(Shown(show, values[0]));
      if text != "" then text else FirstText(show, values[1..])
  }

  /** `_filesystem_payload_operation`. */
  function PayloadOperation(show: Value -> string, payload: Fields): string {
    var (result, nested) := Nested(payload);
    FirstText(show, [Get(payload, "operation"), Get(result, "operation"), Get(nested, "operation")])
  }

  function ArgumentIn(candidate: Fields, key: string): Value {
    var arguments := Get(candidate, "arguments");
    Or(if arguments.Dict? then Get(arguments.fields, key) else Null, Get(candidate, key))
  }

  /** `_filesystem_payload_argument`. */
  function PayloadArgument(payload: Fields, key: string): Value {
    var (result, nested) := Nested(payload);
    var found := Or(Or(ArgumentIn(payload, key), ArgumentIn(result, key)), ArgumentIn(nested, key));
    if Truthy(found) then found else Null
  }

  /** `_tool_result_ok`: a payload that does not say otherwise at its top level is ok. */
  predicate ResultOk(payload: Fields) {
    "ok" in payload ==> Truthy(payload["ok"])
  }

  // ----- the contract -----

  function Existing(metadata: Fields): Option<Fields> {
    if Get(metadata, CONTRACT_KEY).Dict? then Some(Get(metadata, CONTRACT_KEY).fields) else None
  }

  predicate Awaiting(metadata: Fields) {
    Existing(metadata).Some? && Truthy(Get(Existing(metadata).value, "awaiting_write"))
  }

  predicate Candidate(metadata: Fields) {
    Existing(metadata).Some? && Truthy(Get(Existing(metadata).value, "requires_follow_up_after_read"))
  }

  function SourcePath(metadata: Fields): Value {
    if Existing(metadata).Some? then Get(Existing(metadata).value, "source_path") else Null
  }

  function WithContract(metadata: Fields, contract: Fields): Fields {
    metadata[CONTRACT_KEY := Dict(contract)]
  }

  function CandidateContract(path: string): (c: Fields)
    ensures Get(c, "awaiting_write") == Bool(false) && Get(c, "requires_follow_up_after_read") == Bool(true)
    ensures Get(c, "source_path") == Str(path)
  {
    map[
      "awaiting_write" := Bool(false),
      "requires_follow_up_after_read" := Bool(true),
      "capability" := Str("skill.filesystem"),
      "source_path" := Str(path),
      "source" := Str("runtime_structured_operation_recovery")]
  }

  function AwaitedContract(path: string, hint: Value): (c: Fields)
    ensures Get(c, "awaiting_write") == Bool(true) && Get(c, "requires_follow_up_after_read") == Null
    ensures Get(c, "source_path") == Str(path)
  {
    map[
      "awaiting_write" := Bool(true),
      "capability" := Str("skill.filesystem"),
      "source_path" := Str(path),
      "operation_hint" := hint,
      "source" := Str("runtime_read_before_write")]
  }

  function Upgraded(existing: Fields, path: string): (c: Fields)
    ensures Get(c, "awaiting_write") == Bool(true) && Get(c, "requires_follow_up_after_read") == Bool(false)
    ensures Get(c, "source_path") == Str(path)
  {
    existing + map[
      "awaiting_write" := Bool(true),
      "requires_follow_up_after_read" := Bool(false),
      "source_path" := Str(path),
      "source" := Str("runtime_read_before_write")]
  }

  /** No other metadata differs. */
  predicate SameElsewhere(a: Fields, b: Fields) {
    a - {CONTRACT_KEY} == b - {CONTRACT_KEY}
  }

  /** Storing a contract replaces the one before, and nothing else; dropping it leaves none. */
  lemma ContractStored(metadata: Fields, contract: Fields)
    ensures Existing(WithContract(metadata, contract)) == Some(contract) &&
            SameElsewhere(WithContract(metadata, contract), metadata)
  {
    assert WithContract(metadata, contract) - {CONTRACT_KEY} == metadata - {CONTRACT_KEY};
  }

  lemma ContractDropped(metadata: Fields)
    ensures Existing(metadata - {CONTRACT_KEY}).None? && SameElsewhere(metadata - {CONTRACT_KEY}, metadata)
  {
    assert metadata - {CONTRACT_KEY} - {CONTRACT_KEY} == metadata - {CONTRACT_KEY};
  }

  /** `_arm_filesystem_write_follow_up_candidate`. */
  function Arm(show: Value -> string, metadata: Fields, input: Fields): Fields {
    if Awaiting(metadata) || Candidate(metadata) then metadata
    else WithContract(metadata, CandidateContract(Strip(Shown(show, Or(Get(input, "src"), Get(input, "path"))))))
  }

  const MUTATIONS := {"copy_file", "rename_file"}

  /**
   One observed result: the call's input, the recovery its caller found, the payload, and the recovery inside the
   payload.
   */
  datatype Observation = Observation(input: Fields, recovery: Fields, payload: Fields, inner: Fields)

  function Operation(show: Value -> string, o: Observation): string {
    Strip(Shown(show, Get(o.input, "operation")))
  }

  function Done(show: Value -> string, o: Observation): string {
    PayloadOperation(show, o.payload)
  }

  function NextAction(show: Value -> string, o: Observation): string {
    var inferred := if o.recovery != map[] then o.recovery else o.inner;
    Strip(Shown(show, Or(Get(o.recovery, "next_action"), Get(inferred, "next_action"))))
  }

  /** The path a contract is about, from the call's input and then from the payload. */
  function ReadPath(show: Value -> string, o: Observation, known: Value): string {
    var given := Or(Or(known, Get(o.input, "src")), Get(o.input, "path"));
    Strip(Shown(show, Or(Or(given, PayloadArgument(o.payload, "path")), PayloadArgument(o.payload, "src"))))
  }

  predicate CoarseRecovery(show: Value -> string, o: Observation) {
    Operation(show, o) == "" && Done(show, o) == "" && NextAction(show, o) == "continue_model_loop"
  }

  predicate VerifiedRead(show: Value -> string, o: Observation) {
    Done(show, o) == "read_file" && ResultOk(o.payload)
  }

  predicate VerifiedMutation(show: Value -> string, o: Observation) {
    Done(show, o) in MUTATIONS && ResultOk(o.payload)
  }

  /** A read on the way to a mutation: the call named one, or the recovery asked to read before writing. */
  predicate ReadForWrite(show: Value -> string, o: Observation) {
    Done(show, o) == "read_file" && (Operation(show, o) in MUTATIONS || NextAction(show, o) == "read_before_write")
  }

  /** `_mark_filesystem_write_follow_up_contract`. */
  function Mark(show: Value -> string, metadata: Fields, o: Observation): Fields {
    var existing := Existing(metadata);
    if CoarseRecovery(show, o) then Arm(show, metadata, o.input)
    else if VerifiedRead(show, o) && Candidate(metadata) && !Awaiting(metadata) then
      WithContract(metadata, Upgraded(existing.value, ReadPath(show, o, Get(existing.value, "source_path"))))
    else if VerifiedMutation(show, o) then
      if existing.None? then metadata else metadata - {CONTRACT_KEY}
    else if Operation(show, o) !in MUTATIONS && NextAction(show, o) != "read_before_write" then metadata
    else if Done(show, o) != "read_file" then metadata
    else if Awaiting(metadata) then metadata
    else WithContract(metadata, AwaitedContract(
      ReadPath(show, o, Null), if Operation(show, o) in MUTATIONS then Str(Operation(show, o)) else Null))
  }

  // ----- any sequence of steps -----

  datatype Step = Armed(input: Fields) | Observed(observation: Observation)

  function Take(show: Value -> string, metadata: Fields, step: Step): Fields {
    match step
    case Armed(input) => Arm(show, metadata, input)
    case Observed(o) => Mark(show, metadata, o)
  }

  function After(show: Value -> string, metadata: Fields, steps: seq<Step>): Fields {
    if steps == [] then metadata
    else Take(show, After(show, metadata, steps[..|steps| - 1]), steps[|steps| - 1])
  }

  /** No contract, a candidate that a read must follow, or a write awaited. */
  function Rank(metadata: Fields): nat {
    if Awaiting(metadata) then 2 else if Candidate(metadata) then 1 else 0
  }

  predicate NeverBoth(metadata: Fields) {
    !(Awaiting(metadata) && Candidate(metadata))
  }

  predicate Clears(show: Value -> string, step: Step) {
    step.Observed? && VerifiedMutation(show, step.observation)
  }

  /**
   What the rank becomes, from the rank it was: only a verified mutation lowers it, and only a read makes a write
   awaited.
   */
  function NextRank(show: Value -> string, rank: nat, step: Step): nat {
    match step
    case Armed(_) => if rank == 0 then 1 else rank
    case Observed(o) =>
      if CoarseRecovery(show, o) then (if rank == 0 then 1 else rank)
      else if VerifiedMutation(show, o) then 0
      else if (rank == 1 && VerifiedRead(show, o)) || ReadForWrite(show, o) then 2
      else rank
  }

  /** One step, completely: the rank, the other metadata, and the two flags. */
  lemma TakeMoves(show: Value -> string, metadata: Fields, step: Step)
    requires NeverBoth(metadata)
    ensures var after := Take(show, metadata, step);
            NeverBoth(after) && Rank(after) == NextRank(show, Rank(metadata), step) && SameElsewhere(after, metadata)
  {
    hide Operation, NextAction, Done, ReadPath, Shown, CandidateContract, AwaitedContract, Upgraded, WithContract,
         Existing, SameElsewhere;
    assert "read_file" !in MUTATIONS by {
      assert "read_file"[0] == 'r' && "read_file"[1] == 'e' && "rename_file"[2] == 'n';
    }
    match step
    case Armed(input) => ArmMoves(show, metadata, input);
    case Observed(o) =>
      if CoarseRecovery(show, o) {
        ArmMoves(show, metadata, o.input);
      } else if VerifiedMutation(show, o) {
        ContractDropped(metadata);
        SameAsItself(metadata);
      } else {
        SameAsItself(metadata);
        if Candidate(metadata) && VerifiedRead(show, o) {
          ContractStored(metadata,
                         Upgraded(Existing(metadata).value,
                                  ReadPath(show, o, Get(Existing(metadata).value, "source_path"))));
        } else {
          ContractStored(metadata, AwaitedContract(
            ReadPath(show, o, Null), if Operation(show, o) in MUTATIONS then Str(Operation(show, o)) else Null));
        }
      }
  }

  lemma SameAsItself(metadata: Fields)
    ensures SameElsewhere(metadata, metadata)
  {
  }

  lemma ArmMoves(show: Value -> string, metadata: Fields, input: Fields)
    requires NeverBoth(metadata)
    ensures var after := Arm(show, metadata, input);
            NeverBoth(after) && Rank(after) == (if Rank(metadata) == 0 then 1 else Rank(metadata)) &&
              SameElsewhere(after, metadata)
  {
    hide Shown, Strip, CandidateContract, WithContract, Existing;
    if !Awaiting(metadata) && !Candidate(metadata) {
      ContractStored(metadata, CandidateContract(Strip(Shown(show, Or(Get(input, "src"), Get(input, "path"))))));
    }
  }

  /** Over any steps from metadata whose flags are not both set, they never both are, and no other metadata changes. */
  lemma {:induction false} EveryRunKeepsFlagsApart(show: Value -> string, metadata: Fields, steps: seq<Step>)
    requires NeverBoth(metadata)
    ensures NeverBoth(After(show, metadata, steps))
    ensures SameElsewhere(After(show, metadata, steps), metadata)
  {
    hide Take, NeverBoth;
    if steps == [] {
    } else {
      EveryRunKeepsFlagsApart(show, metadata, steps[..|steps| - 1]);
      TakeMoves(show, After(show, metadata, steps[..|steps| - 1]), steps[|steps| - 1]);
    }
  }

  /** Between any two points of a run without a verified mutation in between, the rank has not fallen. */
  lemma {:induction false} RankOnlyFallsByMutation(show: Value -> string, metadata: Fields, before: seq<Step>,
                                                   more: seq<Step>)
    requires NeverBoth(metadata) && forall step <- more :: !Clears(show, step)
    ensures Rank(After(show, metadata, before)) <= Rank(After(show, metadata, before + more))
    decreases |more|
  {
    hide Take, NeverBoth, Rank, VerifiedMutation, VerifiedRead, ReadForWrite, CoarseRecovery;
    if more == [] {
      assert before + more == before;
    } else {
      var last := |more| - 1;
      var front := before + more[..last];
      assert (before + more)[..|before + more| - 1] == front;
      RankOnlyFallsByMutation(show, metadata, before, more[..last]);
      EveryRunKeepsFlagsApart(show, metadata, front);
      TakeMoves(show, After(show, metadata, front), more[last]);
      assert more[last] in more;
      RankIsSmall(After(show, metadata, front));
    }
  }

  lemma RankIsSmall(metadata: Fields)
    ensures Rank(metadata) <= 2
  {
  }

  /** A step lowers the rank exactly when it is a verified mutation and there was something to lower. */
  lemma FallsIffVerifiedMutation(show: Value -> string, metadata: Fields, step: Step)
    requires NeverBoth(metadata)
    ensures Rank(Take(show, metadata, step)) < Rank(metadata) <==> Clears(show, step) && Rank(metadata) > 0
    ensures Clears(show, step) ==> Existing(Take(show, metadata, step)).None?
  {
    hide Operation, NextAction, Done, ReadPath, Shown, CandidateContract, AwaitedContract, Upgraded, WithContract,
         SameElsewhere;
    TakeMoves(show, metadata, step);
    ContractDropped(metadata);
  }

  // ----- the source path -----

  /**
   Whatever metadata the run began with: the upgrade by a verified read keeps the candidate's path exactly when that
   path is a string with no white space around it. A path that is not is stripped, or shown as text.
   */
  lemma VerifiedUpgradeKeepsPathIff(show: Value -> string, metadata: Fields, o: Observation)
    requires NeverBoth(metadata) && Candidate(metadata) && VerifiedRead(show, o) && Truthy(SourcePath(metadata))
    ensures Awaiting(Mark(show, metadata, o))
    ensures SourcePath(Mark(show, metadata, o)) == Str(Strip(Shown(show, SourcePath(metadata))))
    ensures SourcePath(Mark(show, metadata, o)) == SourcePath(metadata) <==>
            SourcePath(metadata).Str? && Stripped(SourcePath(metadata).s)
  {
    hide Operation, NextAction, Done, PayloadArgument, Upgraded, WithContract, Existing, Strip, Stripped;
    var known := SourcePath(metadata);
    StripIsStripped(Shown(show, known));
    assert ReadPath(show, o, known) == Strip(Shown(show, known));
    ContractStored(metadata, Upgraded(Existing(metadata).value, ReadPath(show, o, known)));
  }

  /** A contract, if there is one, holds a stripped path. */
  predicate OwnPath(metadata: Fields) {
    Existing(metadata).Some? ==> SourcePath(metadata).Str? && Stripped(SourcePath(metadata).s)
  }

  /** Every path that arming or observing stores is stripped. */
  lemma TakeKeepsOwnPath(show: Value -> string, metadata: Fields, step: Step)
    requires OwnPath(metadata)
    ensures OwnPath(Take(show, metadata, step))
  {
    hide Operation, NextAction, Done, ReadPath, Shown, CandidateContract, AwaitedContract, Upgraded, WithContract,
         Existing, SameElsewhere;
    hide Strip, Stripped, ResultOk;
    match step
    case Armed(input) => ArmKeepsOwnPath(show, metadata, input);
    case Observed(o) =>
      if CoarseRecovery(show, o) {
        ArmKeepsOwnPath(show, metadata, o.input);
      } else if VerifiedRead(show, o) && Candidate(metadata) && !Awaiting(metadata) {
        var path := ReadPath(show, o, Get(Existing(metadata).value, "source_path"));
        ReadPathIsStripped(show, o, Get(Existing(metadata).value, "source_path"));
        ContractStored(metadata, Upgraded(Existing(metadata).value, path));
      } else {
        ContractDropped(metadata);
        ReadPathIsStripped(show, o, Null);
        ContractStored(metadata, AwaitedContract(
          ReadPath(show, o, Null), if Operation(show, o) in MUTATIONS then Str(Operation(show, o)) else Null));
      }
  }

  lemma ReadPathIsStripped(show: Value -> string, o: Observation, known: Value)
    ensures Stripped(ReadPath(show, o, known))
  {
    hide Strip, Stripped, PayloadArgument, Shown;
    StripIsStripped(Shown(show, Or(Or(Or(Or(known, Get(o.input, "src")), Get(o.input, "path")),
                                      PayloadArgument(o.payload, "path")), PayloadArgument(o.payload, "src"))));
  }

  lemma ArmKeepsOwnPath(show: Value -> string, metadata: Fields, input: Fields)
    requires OwnPath(metadata)
    ensures OwnPath(Arm(show, metadata, input))
  {
    hide Strip, Stripped, CandidateContract, WithContract, Existing, Shown;
    var path := Shown(show, Or(Get(input, "src"), Get(input, "path")));
    StripIsStripped(path);
    ContractStored(metadata, CandidateContract(Strip(path)));
  }

  /** Over any steps from metadata without a contract, every contract holds a stripped path. */
  lemma {:induction false} EveryPathIsStripped(show: Value -> string, metadata: Fields, steps: seq<Step>)
    requires Existing(metadata).None?
    ensures OwnPath(After(show, metadata, steps)) && NeverBoth(After(show, metadata, steps))
  {
    hide Take, OwnPath;
    if steps == [] {
      assert OwnPath(metadata) by { NoContractOwnsNoPath(metadata); }
    } else {
      EveryPathIsStripped(show, metadata, steps[..|steps| - 1]);
      TakeKeepsOwnPath(show, After(show, metadata, steps[..|steps| - 1]), steps[|steps| - 1]);
      EveryRunKeepsFlagsApart(show, metadata, steps);
    }
  }

  lemma NoContractOwnsNoPath(metadata: Fields)
    requires Existing(metadata).None?
    ensures OwnPath(metadata)
  {
  }

  /** The steps that can lose a path: a verified mutation, and a read that failed on the way to one. */
  predicate Loses(show: Value -> string, step: Step) {
    Clears(show, step) ||
      (step.Observed? && ReadForWrite(show, step.observation) && !VerifiedRead(show, step.observation))
  }

  lemma TakeKeepsPath(show: Value -> string, metadata: Fields, step: Step)
    requires NeverBoth(metadata) && OwnPath(metadata) && Rank(metadata) > 0 && SourcePath(metadata) != Str("")
    requires !Loses(show, step)
    ensures SourcePath(Take(show, metadata, step)) == SourcePath(metadata) && Rank(Take(show, metadata, step)) > 0
  {
    hide Operation, NextAction, Done, ReadPath, Shown, AwaitedContract, Upgraded, WithContract, Existing, SameElsewhere,
         Stripped, Strip;
    TakeMoves(show, metadata, step);
    if step.Observed? && VerifiedRead(show, step.observation) && Candidate(metadata) {
      VerifiedUpgradeKeepsPathIff(show, metadata, step.observation);
    }
  }

  /**
   Over any steps from metadata without a contract: once a contract holds a nonempty path, every verified read that
   upgrades it keeps that path, and so does every later step, until a verified mutation clears the contract or a failed
   read on the way to one replaces it.
   */
  lemma {:induction false} PathSurvives(show: Value -> string, metadata: Fields, steps: seq<Step>, more: seq<Step>)
    requires Existing(metadata).None?
    requires var armed := After(show, metadata, steps); Rank(armed) > 0 && SourcePath(armed) != Str("")
    requires forall step <- more :: !Loses(show, step)
    ensures SourcePath(After(show, metadata, steps + more)) == SourcePath(After(show, metadata, steps))
    ensures Rank(After(show, metadata, steps + more)) > 0
    decreases |more|
  {
    hide Take, Rank, Loses, SourcePath, OwnPath, NeverBoth, Existing;
    if more == [] {
      assert steps + more == steps;
    } else {
      var last := |more| - 1;
      var front := steps + more[..last];
      assert (steps + more)[..|steps + more| - 1] == front;
      PathSurvives(show, metadata, steps, more[..last]);
      EveryPathIsStripped(show, metadata, front);
      assert more[last] in more;
      TakeKeepsPath(show, After(show, metadata, front), more[last]);
    }
  }

  // ----- what the code does not promise -----

  function FailedCopy(): (o: Observation)
    ensures ResultOk(o.payload) && Get(AsDict(Get(o.payload, "result")), "ok") == Bool(false)
    ensures Get(o.payload, "operation") == Str("copy_file") && o.input == map[]
  {
    Observation(map[], map[], map["operation" := Str("copy_file"), "result" := Dict(map["ok" := Bool(false)])], map[])
  }

  function FailedRead(): (o: Observation)
    ensures !ResultOk(o.payload) && Get(o.payload, "operation") == Str("read_file") && Get(o.payload, "result") == Null
    ensures Get(o.input, "operation") == Str("copy_file") && Get(o.input, "src") == Str("") &&
            Get(o.input, "path") == Null
    ensures forall key :: key == "path" || key == "src" || key == "arguments" ==> Get(o.payload, key) == Null
  {
    Observation(map["operation" := Str("copy_file"), "src" := Str("")], map[],
                map["operation" := Str("read_file"), "ok" := Bool(false)], map[])
  }

  lemma OperationRead(show: Value -> string, payload: Fields, name: string)
    requires Get(payload, "operation") == Str(name) && name != "" && Stripped(name)
    ensures PayloadOperation(show, payload) == name
  {
    hide Strip, Get;
    StripIsStripped(name);
  }

  /** A payload whose failure is only nested reads as ok: a failed copy clears an awaited write. */
  lemma NestedFailureClears(show: Value -> string, metadata: Fields)
    ensures Existing(Mark(show, metadata, FailedCopy())).None?
  {
    hide FailedCopy, Existing, PayloadOperation, Strip;
    OperationRead(show, FailedCopy().payload, "copy_file");
    ContractDropped(metadata);
    StripIsStripped("");
    assert Operation(show, FailedCopy()) == "";
  }

  /** A read that failed still makes a write awaited when the call named a mutation, and drops the candidate's path. */
  lemma FailedReadUpgrades(show: Value -> string, metadata: Fields)
    requires Candidate(metadata) && !Awaiting(metadata)
    ensures Awaiting(Mark(show, metadata, FailedRead())) && SourcePath(Mark(show, metadata, FailedRead())) == Str("")
  {
    hide FailedRead, Existing, PayloadOperation, Strip, AwaitedContract, WithContract;
    var o := FailedRead();
    OperationRead(show, o.payload, "read_file");
    StripIsStripped("copy_file");
    StripIsStripped("");
    NoArguments(o.payload);
    assert Operation(show, o) == "copy_file";
    assert ReadPath(show, o, Null) == "";
    ContractStored(metadata, AwaitedContract("", Str("copy_file")));
  }

  lemma NoArguments(payload: Fields)
    requires Get(payload, "result") == Null
    requires forall key :: key == "path" || key == "src" || key == "arguments" ==> Get(payload, key) == Null
    ensures PayloadArgument(payload, "path") == Null && PayloadArgument(payload, "src") == Null
  {
  }
}
