/**
 Aliases under which capabilities are offered to the model (graph_factory.py): provider names allow fewer characters.
 */
module ToolAliases {

  // ----- the alias of one name -----

  predicate Safe(c: char) {
    'A' <= c <= 'Z' || 'a' <= c <= 'z' || '0' <= c <= '9' || c == '_' || c == '-'
  }

  function Cleaned(name: string): string {
    if name == "" then "" else [if Safe(name[0]) then name[0] else '_'] + Cleaned(name[1..])
  }

  function StripUnderscores(s: string): string {
    if s != "" && s[0] == '_' then StripUnderscores(s[1..])
    else if s != "" && s[|s| - 1] == '_' then StripUnderscores(s[..|s| - 1])
    else s
  }

  /** `_safe_tool_alias`. */
  function SafeAlias(name: string): string {
    var alias := StripUnderscores(Cleaned(name));
    var short := if |alias| > 64 then alias[..64] else alias;
    if short == "" then "agent_tool" else short
  }

  predicate AllSafe(s: string) {
    forall c <- s :: Safe(c)
  }

  lemma {:induction false} CleanedIsSafe(name: string)
    ensures AllSafe(Cleaned(name)) && |Cleaned(name)| == |name|
    ensures AllSafe(name) ==> Cleaned(name) == name
  {
    if name == "" {
    } else {
      CleanedIsSafe(name[1..]);
    }
  }

  lemma {:induction false} StripStaysSafe(s: string)
    requires AllSafe(s)
    ensures AllSafe(StripUnderscores(s))
    decreases |s|
  {
    if s != "" && s[0] == '_' { StripStaysSafe(s[1..]); }
    else if s != "" && s[|s| - 1] == '_' { StripStaysSafe(s[..|s| - 1]); }
  }

  lemma SafeAliasIsSafe(name: string)
    ensures AllSafe(SafeAlias(name)) && 1 <= |SafeAlias(name)| <= 64
  {
    CleanedIsSafe(name);
    StripStaysSafe(Cleaned(name));
  }

  // ----- numbered aliases -----

  function Digit(d: nat): char
    requires d < 10
  {
    "0123456789"[d]
  }

  function Decimal(n: nat): (s: string)
    ensures s != ""
  {
    if n < 10 then [Digit(n)] else Decimal(n / 10) + [Digit(n % 10)]
  }

  lemma {:induction false} DecimalInjective(m: nat, n: nat)
    requires Decimal(m) == Decimal(n)
    ensures m == n
  {
    var s, t := Decimal(m), Decimal(n);
    assert s[|s| - 1] == Digit(m % 10) && t[|t| - 1] == Digit(n % 10);
    if m >= 10 && n >= 10 {
      assert s[..|s| - 1] == Decimal(m / 10) && t[..|t| - 1] == Decimal(n / 10);
      DecimalInjective(m / 10, n / 10);
    }
    assert m >= 10 ==> |s| >= 2;
    assert n >= 10 ==> |t| >= 2;
  }

  lemma {:induction false} DecimalIsSafe(n: nat)
    ensures AllSafe(Decimal(n))
  {
    if n >= 10 { DecimalIsSafe(n / 10); }
  }

  /** The alias tried for a suffix; suffix 1 stands for the base alone. */
  function Numbered(base: string, suffix: nat): string {
    if suffix <= 1 then base else base + "_" + Decimal(suffix)
  }

  lemma NumberedInjective(base: string, j: nat, k: nat)
    requires 1 <= j < k
    ensures Numbered(base, j) != Numbered(base, k)
  {
    var prefix := base + "_";
    if j >= 2 && Decimal(j) == Decimal(k) { DecimalInjective(j, k); }
    assert j >= 2 ==> Numbered(base, j)[|prefix|..] == Decimal(j);
    assert Numbered(base, k)[|prefix|..] == Decimal(k);
  }

  /** The first alias of the base that is not used, in the order they are tried. */
  ghost predicate FirstFree(base: string, used: set<string>, alias: string) {
    exists k: nat :: 1 <= k && alias == Numbered(base, k) && alias !in used && forall j :: 1 <= j < k ==>
        Numbered(base, j) in used
  }

  lemma FirstFreeIsUnique(base: string, used: set<string>, a: string, b: string)
    requires FirstFree(base, used, a) && FirstFree(base, used, b)
    ensures a == b
  {
  }

  /**
   The alias loop ends: the aliases tried so far are distinct and all used, so there are no more of them than used ones.
   */
  method PickAlias(base: string, used: set<string>) returns (alias: string)
    ensures FirstFree(base, used, alias)
  {
    alias := base;
    var suffix := 2;
    ghost var tried: set<string> := {};
    while alias in used
      invariant suffix >= 2 && alias == Numbered(base, suffix - 1)
      invariant tried <= used && forall j :: 1 <= j < suffix - 1 ==> Numbered(base, j) in tried
      invariant forall t <- tried :: exists j: nat :: 1 <= j < suffix - 1 && t == Numbered(base, j)
      decreases used - tried
    {
      if alias in tried {
        var j: nat :| 1 <= j < suffix - 1 && alias == Numbered(base, j);
        NumberedInjective(base, j, suffix - 1);
      }
      tried := tried + {alias};
      assert forall j :: 1 <= j < suffix - 1 ==> Numbered(base, j) in tried;
      alias := base + "_" + Decimal(suffix);
      suffix := suffix + 1;
    }
  }

  // ----- the bundle -----

  /** One offered tool: the alias the model sees and the capability it stands for. */
  datatype Offer = Offer(alias: string, name: string)

  function Aliases(offers: seq<Offer>): set<string> {
    set o <- offers :: o.alias
  }

  function Known(names: seq<string>, registry: set<string>): seq<string> {
    if names == [] then []
    else Known(names[..|names| - 1], registry) + (if names[|names| - 1] in registry then [names[|names| - 1]] else [])
  }

  /** What `alias_to_tool_name` holds: later entries replace earlier ones. */
  function Resolution(offers: seq<Offer>): map<string, string> {
    if offers == [] then map[]
    else
      var last := offers[|offers| - 1];
      Resolution(offers[..|offers| - 1])[last.alias := last.name][last.name := last.name]
  }

  /** One offer per registered name, in order, each under the first free alias of its name. */
  ghost predicate OffersFor(offers: seq<Offer>, names: seq<string>) {
    && |offers| == |names|
    && (forall i :: 0 <= i < |offers| ==>
          offers[i].name == names[i] && FirstFree(SafeAlias(names[i]), Aliases(offers[..i]), offers[i].alias))
  }

  lemma NothingOffered()
    ensures OffersFor([], []) && Aliases([]) == {} && Resolution([]) == map[]
  {
  }

  /** One more offer. */
  lemma OfferedNext(offers: seq<Offer>, names: seq<string>, alias: string, name: string)
    requires OffersFor(offers, names) && FirstFree(SafeAlias(name), Aliases(offers), alias)
    ensures var longer := offers + [Offer(alias, name)];
            && OffersFor(longer, names + [name]) && Aliases(longer) == Aliases(offers) + {alias}
            && Resolution(longer) == Resolution(offers)[alias := name][name := name]
  {
    hide FirstFree, SafeAlias;
    var longer := offers + [Offer(alias, name)];
    assert longer[..|offers|] == offers;
    forall i | 0 <= i < |offers| ensures longer[..i] == offers[..i] && longer[i] == offers[i] {}
    assert longer[|offers|] in longer;
  }

  /** `_build_native_tool_schema_bundle`. */
  method BuildBundle(registry: set<string>, allowed: seq<string>)
    returns (offers: seq<Offer>, resolve: map<string, string>)
    ensures OffersFor(offers, Known(allowed, registry))
    ensures resolve == Resolution(offers)
  {
    hide OffersFor, Aliases, Resolution, SafeAlias, FirstFree;
    offers, resolve := [], map[];
    NothingOffered();
    var used: set<string> := {};
    for i := 0 to |allowed|
      invariant OffersFor(offers, Known(allowed[..i], registry))
      invariant used == Aliases(offers)
      invariant resolve == Resolution(offers)
    {
      var name := allowed[i];
      assert allowed[..i + 1][..i] == allowed[..i];
      assert Known(allowed[..i + 1], registry) == Known(allowed[..i], registry) +
             (if name in registry then [name] else []);
      assert name !in registry ==> Known(allowed[..i + 1], registry) == Known(allowed[..i], registry);
      if name in registry {
        var alias := PickAlias(SafeAlias(name), used);
        OfferedNext(offers, Known(allowed[..i], registry), alias, name);
        used := used + {alias};
        resolve := resolve[alias := name];
        resolve := resolve[name := name];
        offers := offers + [Offer(alias, name)];
      }
    }
    assert allowed[..|allowed|] == allowed;
  }

  lemma {:induction false} NothingKnown(names: seq<string>, registry: set<string>)
    requires forall n <- names :: n !in registry
    ensures Known(names, registry) == []
  {
    if names == [] {
    } else {
      NothingKnown(names[..|names| - 1], registry);
    }
  }

  lemma OffersMatch(offers: seq<Offer>, names: seq<string>)
    requires OffersFor(offers, names)
    ensures |offers| == |names|
  {
  }

  // ----- what the model's names resolve to -----

  /** No two offers share an alias, and every alias is an acceptable provider name. */
  lemma AliasesAreDistinct(offers: seq<Offer>, names: seq<string>)
    requires OffersFor(offers, names)
    ensures forall i, j :: 0 <= i < j < |offers| ==> offers[i].alias != offers[j].alias
    ensures forall i :: 0 <= i < |offers| ==> AllSafe(offers[i].alias) && offers[i].alias != ""
  {
    forall i, j | 0 <= i < j < |offers| ensures offers[i].alias != offers[j].alias {
      assert offers[..j][i] in offers[..j];
    }
    forall i | 0 <= i < |offers| ensures AllSafe(offers[i].alias) && offers[i].alias != "" {
      var base := SafeAlias(names[i]);
      var k: nat :| 1 <= k && offers[i].alias == Numbered(base, k);
      SafeAliasIsSafe(names[i]);
      DecimalIsSafe(k);
    }
  }

  /** Every key stands for one of the offers it was written for, and the last one. */
  lemma {:induction false} ResolvesToSomeOffer(offers: seq<Offer>, key: string)
    ensures key in Resolution(offers) <==> exists o <- offers :: o.alias == key || o.name == key
    ensures key in Resolution(offers) ==>
            exists o <- offers :: (o.alias == key || o.name == key) && Resolution(offers)[key] == o.name
  {
    if offers == [] {
    } else {
      var front, last := offers[..|offers| - 1], offers[|offers| - 1];
      ResolvesToSomeOffer(front, key);
      assert offers == front + [last];
      assert last in offers;
    }
  }

  ghost predicate ResolvesEach(offers: seq<Offer>) {
    forall o <- offers ::
      && o.alias in Resolution(offers) && Resolution(offers)[o.alias] == o.name
      && o.name in Resolution(offers) && Resolution(offers)[o.name] == o.name
  }

  /** No alias is the name of another capability. */
  predicate NoneShadowed(offers: seq<Offer>) {
    forall o <- offers, p <- offers :: o.alias == p.name ==> o.name == p.name
  }

  /** Every offered alias and every raw name resolves to its own capability exactly when no alias is another's name. */
  lemma EachResolvesIffNoneShadowed(offers: seq<Offer>, names: seq<string>)
    requires OffersFor(offers, names)
    ensures ResolvesEach(offers) <==> NoneShadowed(offers)
  {
    AliasesAreDistinct(offers, names);
    if NoneShadowed(offers) {
      forall o | o in offers
        ensures o.alias in Resolution(offers) && Resolution(offers)[o.alias] == o.name
        ensures o.name in Resolution(offers) && Resolution(offers)[o.name] == o.name
      {
        ResolvesToSomeOffer(offers, o.alias);
        ResolvesToSomeOffer(offers, o.name);
      }
    }
  }

  // ----- the same condition, on the registered names alone -----

  /** The first numbered alias from k on that is not used. */
  function FreeFrom(base: string, used: set<string>, k: nat): string
    requires k >= 1
    decreases |used|
  {
    var alias := Numbered(base, k);
    if alias in used then FreeFrom(base, used - {alias}, k + 1) else alias
  }

  lemma {:induction false} FreeFromIsFree(base: string, used: set<string>, k: nat) returns (m: nat)
    requires k >= 1
    ensures k <= m && FreeFrom(base, used, k) == Numbered(base, m) && Numbered(base, m) !in used
    ensures forall j :: k <= j < m ==> Numbered(base, j) in used
    decreases |used|
  {
    hide Numbered;
    var alias := Numbered(base, k);
    if alias in used {
      m := FreeFromIsFree(base, used - {alias}, k + 1);
      NumberedInjective(base, k, m);
    } else {
      m := k;
    }
  }

  /** The alias of each name: the first free one of its cleaned form, given the aliases before it. */
  function PlannedAliases(names: seq<string>): (aliases: seq<string>)
    ensures |aliases| == |names|
  {
    if names == [] then []
    else
      var front := PlannedAliases(names[..|names| - 1]);
      front + [FreeFrom(SafeAlias(names[|names| - 1]), set a <- front, 1)]
  }

  /** The bundle offers each name under its planned alias. */
  lemma {:induction false} OfferedAsPlanned(offers: seq<Offer>, names: seq<string>)
    requires OffersFor(offers, names)
    ensures forall i :: 0 <= i < |names| ==> offers[i] == Offer(PlannedAliases(names)[i], names[i])
  {
    hide SafeAlias, FreeFrom, FirstFree;
    if names == [] {
      assert offers == [];
    } else {
      var n := |names| - 1;
      forall i | 0 <= i < n ensures offers[..n][..i] == offers[..i] && offers[..n][i] == offers[i] {}
      OfferedAsPlanned(offers[..n], names[..n]);
      var front := PlannedAliases(names[..n]);
      forall i | 0 <= i < n ensures offers[i] == Offer(front[i], names[i]) {
        assert offers[..n][i] == Offer(front[i], names[..n][i]);
      }
      assert Aliases(offers[..n]) == set a <- front by { SameAliases(offers[..n], front); }
      PlannedIsFirstFree(SafeAlias(names[n]), Aliases(offers[..n]));
      FirstFreeIsUnique(SafeAlias(names[n]), Aliases(offers[..n]), offers[n].alias,
                        FreeFrom(SafeAlias(names[n]), Aliases(offers[..n]), 1));
    }
  }

  lemma SameAliases(offers: seq<Offer>, aliases: seq<string>)
    requires |offers| == |aliases| && forall i :: 0 <= i < |offers| ==> offers[i].alias == aliases[i]
    ensures Aliases(offers) == set a <- aliases
  {
    forall i | 0 <= i < |offers| ensures offers[i].alias in aliases { assert aliases[i] in aliases; }
    forall i | 0 <= i < |aliases| ensures aliases[i] in Aliases(offers) { assert offers[i] in offers; }
  }

  lemma PlannedIsFirstFree(base: string, used: set<string>)
    ensures FirstFree(base, used, FreeFrom(base, used, 1))
  {
    hide Numbered, FreeFrom;
    var m := FreeFromIsFree(base, used, 1);
  }

  /** No planned alias is the name of another registered capability. */
  predicate NoneTaken(names: seq<string>) {
    var aliases := PlannedAliases(names);
    forall i, j :: 0 <= i < |names| && 0 <= j < |names| && aliases[i] == names[j] ==> names[i] == names[j]
  }

  /**
   Every alias and every raw name resolves to its own capability exactly when, by the names alone, no alias is taken.
   */
  lemma EachResolvesIffNoneTaken(offers: seq<Offer>, names: seq<string>)
    requires OffersFor(offers, names)
    ensures ResolvesEach(offers) <==> NoneTaken(names)
  {
    hide OffersFor, PlannedAliases, ResolvesEach;
    OfferedAsPlanned(offers, names);
    EachResolvesIffNoneShadowed(offers, names);
    OffersMatch(offers, names);
    if NoneShadowed(offers) {
      forall i, j | 0 <= i < |names| && 0 <= j < |names| && PlannedAliases(names)[i] == names[j]
        ensures names[i] == names[j]
      {
        assert offers[i] in offers && offers[j] in offers;
      }
    }
  }

  /** Distinct names that are aliases already are offered as themselves, so none is shadowed. */
  lemma SafeNamesKeepTheirNames(offers: seq<Offer>, names: seq<string>)
    requires OffersFor(offers, names)
    requires forall i, j :: 0 <= i < j < |names| ==> names[i] != names[j]
    requires forall n <- names :: SafeAlias(n) == n
    ensures forall i :: 0 <= i < |offers| ==> offers[i] == Offer(names[i], names[i])
    ensures ResolvesEach(offers)
  {
    hide SafeAlias, Resolution, ResolvesEach, NoneShadowed;
    SafeNamesAreOffered(offers, names);
    assert NoneShadowed(offers) by { OwnNamesShadowNone(offers); }
    EachResolvesIffNoneShadowed(offers, names);
  }

  lemma OwnNamesShadowNone(offers: seq<Offer>)
    requires forall i :: 0 <= i < |offers| ==> offers[i].alias == offers[i].name
    ensures NoneShadowed(offers)
  {
  }

  lemma {:induction false} SafeNamesAreOffered(offers: seq<Offer>, names: seq<string>)
    requires OffersFor(offers, names)
    requires forall i, j :: 0 <= i < j < |names| ==> names[i] != names[j]
    requires forall n <- names :: SafeAlias(n) == n
    ensures forall i :: 0 <= i < |offers| ==> offers[i] == Offer(names[i], names[i])
  {
    hide SafeAlias;
    if offers == [] {
    } else {
      var n := |offers| - 1;
      forall i | 0 <= i < n ensures offers[..n][..i] == offers[..i] {}
      SafeNamesAreOffered(offers[..n], names[..n]);
      forall i | 0 <= i < n ensures offers[i] == Offer(names[i], names[i]) { assert offers[..n][i] == offers[i]; }
      assert names[n] !in Aliases(offers[..n]);
      assert Numbered(names[n], 1) == names[n];
    }
  }

  /** Two registered names that clean to the same alias: the alias offered for `a.b` calls `a_b`. */
  lemma DottedNameIsShadowed(offers: seq<Offer>)
    requires OffersFor(offers, ["a.b", "a_b"])
    ensures offers[0] == Offer("a_b", "a.b") && offers[1] == Offer("a_b_2", "a_b")
    ensures "a_b" in Resolution(offers) && Resolution(offers)["a_b"] == "a_b" && !ResolvesEach(offers)
  {
    DottedAliases();
    var first := offers[..1];
    assert offers[..0] == [] && Aliases([]) == {};
    assert Numbered("a_b", 1) == "a_b" && Numbered("a_b", 2) == "a_b_2";
    assert offers[0].alias == "a_b";
    assert first == [offers[0]];
    assert Aliases(first) == {"a_b"};
    assert FirstFree("a_b", Aliases(first), "a_b_2");
    FirstFreeIsUnique("a_b", Aliases(first), offers[1].alias, "a_b_2");
    assert offers[0] in offers;
  }

  lemma DottedAliases()
    ensures SafeAlias("a.b") == "a_b" && SafeAlias("a_b") == "a_b"
  {
    assert "a.b"[1..] == ".b" && ".b"[1..] == "b" && "b"[1..] == "";
    assert "a_b"[1..] == "_b" && "_b"[1..] == "b";
    assert Cleaned("b") == "b" && Cleaned(".b") == "_b" && Cleaned("_b") == "_b";
    assert Cleaned("a.b") == "a_b" && Cleaned("a_b") == "a_b";
  }
}
