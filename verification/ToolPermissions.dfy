/** The tool permission policy merged from the loaded skills (tool_permissions.py). */
module ToolPermissions {
  import opened Values
  import opened Text

  datatype Decision = Allow | Ask | Deny

  /** A metadata entry that names tools: absent, a list of texts, or one comma-separated text. */
  datatype NameList = NoNames | Names(items: seq<string>) | Commas(text: string)

  /** The three tool lists of one loaded skill. */
  datatype Skill = Skill(id: string, allowed: NameList, ask: NameList, disallowed: NameList)

  datatype Policy = Policy(
    skillId: Option<string>,
    skillIds: seq<string>,
    allowedTools: seq<string>,
    askTools: seq<string>,
    disallowedTools: seq<string>)

  /** The metadata dictionary a policy is written to and read back from. */
  datatype Snapshot = Snapshot(
    skillId: Option<string>,
    skillIds: NameList,
    allowedTools: NameList,
    askTools: NameList,
    disallowedTools: NameList)

  // ----- name lists -----

  function SplitCommas(s: string): (r: seq<string>)
    ensures |r| > 0
  {
    if s == "" then [""]
    else
      var rest := SplitCommas(s[1..]);
      if s[0] == ',' then [""] + rest else [[s[0]] + rest[0]] + rest[1..]
  }

  /** Stripped, with the empty names dropped. */
  function Clean(items: seq<string>): (r: seq<string>)
    ensures forall t <- r :: t != "" && Stripped(t)
  {
    if items == [] then []
    else
      var t := Strip(items[|items| - 1]);
      StripIsStripped(items[|items| - 1]);
      Clean(items[..|items| - 1]) + (if t == "" then [] else [t])
  }

  predicate Distinct(s: seq<string>) {
    forall i, j :: 0 <= i < j < |s| ==> s[i] != s[j]
  }

  /** First occurrences, in order. */
  function Deduped(items: seq<string>): (r: seq<string>)
    ensures forall t :: t in r <==> t in items
    ensures Distinct(r)
  {
    if items == [] then []
    else
      var r := Deduped(items[..|items| - 1]);
      assert items == items[..|items| - 1] + [items[|items| - 1]];
      if items[|items| - 1] in r then r else r + [items[|items| - 1]]
  }

  method Dedupe(items: seq<string>) returns (result: seq<string>)
    ensures result == Deduped(items)
  {
    var seen: set<string> := {};
    result := [];
    for i := 0 to |items|
      invariant result == Deduped(items[..i])
      invariant forall t :: t in seen <==> t in result
    {
      assert items[..i + 1][..i] == items[..i];
      if items[i] in seen {
        continue;
      }
      seen := seen + {items[i]};
      result := result + [items[i]];
    }
    assert items[..|items|] == items;
  }

  /** `_metadata_list`. */
  function MetadataList(names: NameList): seq<string> {
    match names
    case NoNames => []
    case Names(items) => Deduped(Clean(items))
    case Commas(text) => Deduped(Clean(SplitCommas(text)))
  }

  predicate AllClean(items: seq<string>) {
    forall i :: 0 <= i < |items| ==> items[i] != "" && Stripped(items[i])
  }

  lemma {:induction false} CleanKeepsClean(items: seq<string>)
    requires AllClean(items)
    ensures Clean(items) == items
  {
    if items == [] {
    } else {
      var front, last := items[..|items| - 1], items[|items| - 1];
      assert Strip(last) == last by { StripIsStripped(last); }
      assert AllClean(front);
      CleanKeepsClean(front);
      assert items == front + [last];
    }
  }

  lemma {:induction false} DedupedKeepsDistinct(items: seq<string>)
    requires Distinct(items)
    ensures Deduped(items) == items
  {
    if items == [] {
    } else {
      DedupedKeepsDistinct(items[..|items| - 1]);
    }
  }

  // ----- merging -----

  datatype Which = AllowedTools | AskTools | DisallowedTools

  function ToolsOf(skill: Skill, w: Which): seq<string> {
    match w
    case AllowedTools => MetadataList(skill.allowed)
    case AskTools => MetadataList(skill.ask)
    case DisallowedTools => MetadataList(skill.disallowed)
  }

  function Gathered(skills: seq<Skill>, w: Which): (r: seq<string>)
    ensures forall t :: t in r <==> exists s :: s in skills && t in ToolsOf(s, w)
  {
    if skills == [] then []
    else
      assert skills == skills[..|skills| - 1] + [skills[|skills| - 1]];
      Gathered(skills[..|skills| - 1], w) + ToolsOf(skills[|skills| - 1], w)
  }

  function SkillIds(skills: seq<Skill>): seq<string> {
    if skills == [] then []
    else SkillIds(skills[..|skills| - 1]) + (if skills[|skills| - 1].id == "" then [] else [skills[|skills| - 1].id])
  }

  function Merged(skills: seq<Skill>): Policy {
    var ids := SkillIds(skills);
    Policy(if |ids| == 1 then Some(ids[0]) else None,
           Deduped(ids),
           Deduped(Gathered(skills, AllowedTools)),
           Deduped(Gathered(skills, AskTools)),
           Deduped(Gathered(skills, DisallowedTools)))
  }

  /** `from_loaded_skill_metadata`. */
  method FromLoadedSkills(loaded: seq<Skill>) returns (policy: Policy)
    ensures policy == Merged(loaded)
  {
    var ids: seq<string>, allowed: seq<string>, ask: seq<string>, disallowed: seq<string> := [], [], [], [];
    for i := 0 to |loaded|
      invariant ids == SkillIds(loaded[..i])
      invariant allowed == Gathered(loaded[..i], AllowedTools)
      invariant ask == Gathered(loaded[..i], AskTools)
      invariant disallowed == Gathered(loaded[..i], DisallowedTools)
    {
      assert loaded[..i + 1][..i] == loaded[..i];
      if loaded[i].id != "" {
        ids := ids + [loaded[i].id];
      }
      allowed := allowed + ToolsOf(loaded[i], AllowedTools);
      ask := ask + ToolsOf(loaded[i], AskTools);
      disallowed := disallowed + ToolsOf(loaded[i], DisallowedTools);
    }
    assert loaded[..|loaded|] == loaded;
    var dedupedIds := Dedupe(ids);
    var dedupedAllowed := Dedupe(allowed);
    var dedupedAsk := Dedupe(ask);
    var dedupedDisallowed := Dedupe(disallowed);
    policy := Policy(if |ids| == 1 then Some(ids[0]) else None, dedupedIds, dedupedAllowed, dedupedAsk,
                     dedupedDisallowed);
  }

  /** `from_skill_metadata`: the policy of one skill alone. */
  function OfSkill(skill: Skill): Policy {
    Policy(if skill.id == "" then None else Some(skill.id),
           if skill.id == "" then [] else [skill.id],
           MetadataList(skill.allowed), MetadataList(skill.ask), MetadataList(skill.disallowed))
  }

  /** `to_metadata`. */
  function ToMetadata(p: Policy): Snapshot {
    Snapshot(p.skillId, Names(p.skillIds), Names(p.allowedTools), Names(p.askTools), Names(p.disallowedTools))
  }

  /** `from_metadata_snapshot`. */
  function FromSnapshot(m: Snapshot): Policy {
    var ids := MetadataList(m.skillIds);
    var id := Strip(m.skillId.GetOr(""));
    Policy(if id != "" then Some(id) else if |ids| == 1 then Some(ids[0]) else None,
           ids, MetadataList(m.allowedTools), MetadataList(m.askTools), MetadataList(m.disallowedTools))
  }

  /** `decide`. */
  function Decide(p: Policy, toolName: string, confirmed: bool): Decision {
    var name := Strip(toolName);
    if name in p.disallowedTools then Deny
    else if name in p.askTools then (if confirmed then Allow else Ask)
    else if p.allowedTools != [] && name !in p.allowedTools then (if confirmed then Allow else Ask)
    else Allow
  }

  // ----- what merging means -----

  predicate Denies(s: Skill, name: string) { name in ToolsOf(s, DisallowedTools) }
  predicate Asks(s: Skill, name: string) { name in ToolsOf(s, AskTools) }
  predicate Lists(s: Skill, name: string) { name in ToolsOf(s, AllowedTools) }
  predicate Restricts(s: Skill) { ToolsOf(s, AllowedTools) != [] }

  /** A merged list holds exactly the tools some skill's list holds. */
  lemma MergedTools(skills: seq<Skill>, w: Which, name: string)
    ensures name in Deduped(Gathered(skills, w)) <==> exists s :: s in skills && name in ToolsOf(s, w)
  {
  }

  lemma MergedRestricts(skills: seq<Skill>)
    ensures Deduped(Gathered(skills, AllowedTools)) != [] <==> exists s :: s in skills && Restricts(s)
  {
    var merged := Deduped(Gathered(skills, AllowedTools));
    if merged != [] {
      MergedTools(skills, AllowedTools, merged[0]);
      assert merged[0] in merged;
      var s :| s in skills && merged[0] in ToolsOf(s, AllowedTools);
      assert Restricts(s);
    }
    if s :| s in skills && Restricts(s) {
      var t := ToolsOf(s, AllowedTools)[0];
      assert t in ToolsOf(s, AllowedTools);
      MergedTools(skills, AllowedTools, t);
    }
  }

  /** What the skills together say of a tool. */
  ghost predicate SomeDenies(skills: seq<Skill>, name: string) { exists s :: s in skills && Denies(s, name) }
  ghost predicate SomeAsks(skills: seq<Skill>, name: string) { exists s :: s in skills && Asks(s, name) }
  ghost predicate SomeLists(skills: seq<Skill>, name: string) { exists s :: s in skills && Lists(s, name) }
  ghost predicate SomeRestricts(skills: seq<Skill>) { exists s :: s in skills && Restricts(s) }

  /**
   The merged decision in terms of the skills: denied when some skill denies the tool; else put to the user when
   unconfirmed and either some skill asks for it or some skill restricts the tools and no skill lists this one.
   */
  lemma MergedDecision(skills: seq<Skill>, toolName: string, confirmed: bool)
    ensures var name := Strip(toolName);
            Decide(Merged(skills), toolName, confirmed) ==
            if SomeDenies(skills, name) then Deny
            else if !confirmed && (SomeAsks(skills, name) || (SomeRestricts(skills) && !SomeLists(skills, name))) then
              Ask
            else Allow
  {
    hide Gathered, Deduped, ToolsOf, Strip;
    var name := Strip(toolName);
    MergedTools(skills, DisallowedTools, name);
    MergedTools(skills, AskTools, name);
    MergedTools(skills, AllowedTools, name);
    MergedRestricts(skills);
    assert SomeDenies(skills, name) <==> name in Merged(skills).disallowedTools;
    assert SomeAsks(skills, name) <==> name in Merged(skills).askTools;
    assert SomeLists(skills, name) <==> name in Merged(skills).allowedTools;
    assert SomeRestricts(skills) <==> Merged(skills).allowedTools != [];
  }

  /** A merged policy denies exactly what one of its skills alone denies. */
  lemma MergedDeniesIffSomeSkillDenies(skills: seq<Skill>, toolName: string, confirmed: bool)
    ensures Decide(Merged(skills), toolName, confirmed) == Deny <==>
            exists s :: s in skills && Decide(OfSkill(s), toolName, confirmed) == Deny
  {
    hide Merged, Strip, MetadataList;
    MergedDecision(skills, toolName, confirmed);
    forall s | s in skills
      ensures Denies(s, Strip(toolName)) <==> Decide(OfSkill(s), toolName, confirmed) == Deny
    {
    }
  }

  /** Decisions depend on the loaded skills as a set: order and repetition do not matter. */
  lemma DecisionIgnoresSkillOrder(skills: seq<Skill>, others: seq<Skill>, toolName: string, confirmed: bool)
    requires forall s :: s in skills <==> s in others
    ensures Decide(Merged(skills), toolName, confirmed) == Decide(Merged(others), toolName, confirmed)
  {
    hide Merged, Strip, ToolsOf;
    MergedDecision(skills, toolName, confirmed);
    MergedDecision(others, toolName, confirmed);
  }

  lemma NamesAreClean(names: NameList, t: string)
    requires t in MetadataList(names)
    ensures t != "" && Stripped(t)
  {
  }

  lemma ToolsAreClean(s: Skill, w: Which, t: string)
    requires t in ToolsOf(s, w)
    ensures t != "" && Stripped(t)
  {
    match w
    case AllowedTools => NamesAreClean(s.allowed, t);
    case AskTools => NamesAreClean(s.ask, t);
    case DisallowedTools => NamesAreClean(s.disallowed, t);
  }

  lemma CleanDistinctIsStable(list: seq<string>)
    requires AllClean(list) && Distinct(list)
    ensures MetadataList(Names(list)) == list
  {
    CleanKeepsClean(list);
    DedupedKeepsDistinct(list);
  }

  lemma MergedListIsStable(skills: seq<Skill>, w: Which)
    ensures MetadataList(Names(Deduped(Gathered(skills, w)))) == Deduped(Gathered(skills, w))
  {
    var merged := Deduped(Gathered(skills, w));
    assert AllClean(merged) by {
      forall i | 0 <= i < |merged| ensures merged[i] != "" && Stripped(merged[i]) {
        MergedTools(skills, w, merged[i]);
        var s :| s in skills && merged[i] in ToolsOf(s, w);
        ToolsAreClean(s, w, merged[i]);
      }
    }
    CleanDistinctIsStable(merged);
  }

  /** A policy survives its snapshot: same lists, hence the same decision for every tool. */
  lemma SnapshotKeepsDecisions(skills: seq<Skill>, toolName: string, confirmed: bool)
    ensures var p := Merged(skills); var q := FromSnapshot(ToMetadata(p));
            && q.allowedTools == p.allowedTools && q.askTools == p.askTools && q.disallowedTools == p.disallowedTools
            && Decide(q, toolName, confirmed) == Decide(p, toolName, confirmed)
  {
    hide Gathered, Deduped, MetadataList, Strip;
    MergedListIsStable(skills, AllowedTools);
    MergedListIsStable(skills, AskTools);
    MergedListIsStable(skills, DisallowedTools);
  }

  /** The snapshot does not keep skill_id: two loads of one skill have none before it and one after it. */
  lemma SnapshotMayNameASkill(s: Skill)
    requires s.id != "" && Stripped(s.id)
    ensures Merged([s, s]).skillId == None
    ensures FromSnapshot(ToMetadata(Merged([s, s]))).skillId == Some(s.id)
  {
    var ids := [s.id, s.id];
    assert SkillIds([s, s]) == ids by {
      assert [s, s][..1] == [s] && [s][..0] == [];
      assert SkillIds([]) == [] && SkillIds([s]) == [s.id];
    }
    assert Deduped(ids) == [s.id] by {
      assert ids[..1] == [s.id] && [s.id][..0] == [];
      assert Deduped([]) == [] && Deduped([s.id]) == [s.id];
    }
    CleanKeepsClean([s.id]);
    DedupedKeepsDistinct([s.id]);
    StripIsStripped("");
    assert MetadataList(Names([s.id])) == [s.id];
  }

  lemma {:induction false} CleanMembers(items: seq<string>)
    ensures forall t :: t in Clean(items) <==> t != "" && exists x <- items :: Strip(x) == t
  {
    hide Strip;
    if items == [] {
    } else {
      var front, last := items[..|items| - 1], items[|items| - 1];
      CleanMembers(front);
      assert items == front + [last];
    }
  }

  /** All the ids that are not blank strip to one name. */
  ghost predicate OnlyName(ids: seq<string>, t: string) {
    t != "" && (forall x <- ids :: Strip(x) == t || Strip(x) == "") && (exists x <- ids :: Strip(x) == t)
  }

  lemma SnapshotIds(ids: seq<string>)
    ensures var list := MetadataList(Names(Deduped(ids)));
            Distinct(list) && forall t :: t in list <==> t != "" && exists x <- ids :: Strip(x) == t
  {
    hide Strip;
    CleanMembers(Deduped(ids));
  }

  /** A snapshot lists a single id exactly when all nonblank ids strip to that name. */
  lemma OneIdIff(ids: seq<string>)
    ensures |MetadataList(Names(Deduped(ids)))| == 1 <==> exists t :: OnlyName(ids, t)
  {
    hide Strip, MetadataList, Deduped;
    SnapshotIds(ids);
    var list := MetadataList(Names(Deduped(ids)));
    assert |list| >= 2 ==> list[0] != list[1] && list[0] in list && list[1] in list;
    if |list| == 1 {
      assert list[0] in list;
      forall x | x in ids ensures Strip(x) == list[0] || Strip(x) == "" {
        assert Strip(x) != "" ==> Strip(x) in list;
      }
      assert OnlyName(ids, list[0]);
    }
    if t :| OnlyName(ids, t) {
      assert t in list && forall u <- list :: u == t;
    }
  }

  /**
   The snapshot keeps skill_id exactly when a single id is stripped, and when several ids do not all strip to one name.
   */
  lemma SkillIdKeptIff(skills: seq<Skill>)
    ensures FromSnapshot(ToMetadata(Merged(skills))).skillId == Merged(skills).skillId <==>
            var ids := SkillIds(skills); if |ids| == 1 then Stripped(ids[0]) else !exists t :: OnlyName(ids, t)
  {
    hide Strip, MetadataList, Gathered, Deduped, OnlyName;
    var ids := SkillIds(skills);
    OneIdIff(ids);
    StripIsStripped("");
    if |ids| == 1 {
      OneIdNotEmpty(skills);
      assert ids[0] in ids && ids[0] != "";
      StripIsStripped(ids[0]);
      assert Stripped(ids[0]) <==> Strip(ids[0]) == ids[0];
      if Strip(ids[0]) == "" {
        BlankIdIsDropped(ids);
        assert FromSnapshot(ToMetadata(Merged(skills))).skillId == None;
      }
    }
  }

  lemma {:induction false} OneIdNotEmpty(skills: seq<Skill>)
    ensures forall id <- SkillIds(skills) :: id != ""
  {
    if skills == [] {
    } else {
      OneIdNotEmpty(skills[..|skills| - 1]);
    }
  }

  lemma BlankIdIsDropped(ids: seq<string>)
    requires |ids| == 1 && Strip(ids[0]) == ""
    ensures |MetadataList(Names(Deduped(ids)))| != 1
  {
    hide Strip;
    OneIdIff(ids);
  }

  /** Confirmation only ever turns Ask into Allow. */
  lemma ConfirmationOnlyAllows(p: Policy, toolName: string)
    ensures Decide(p, toolName, true) != Ask
    ensures Decide(p, toolName, true) ==
            (if Decide(p, toolName, false) == Ask then Allow else Decide(p, toolName, false))
  {
  }
}
