/**
 The company list (tool_registry.py): profiles, leads and signals grouped by case-folded company name. `fold` is
 `str.casefold`; the three queries' rows are inputs.
 */
module CompanyList {
  import opened Values
  import opened Text

  type Folding = string -> string

  /** One row of a query, as `ensure_company` gets it, with the count it adds. */
  datatype Contribution = Contribution(
    name: Option<string>,
    hasProfile: bool,
    tier: nat,
    sortKey: Option<string>,
    jobs: nat,
    leads: nat,
    signals: nat)

  /** An entry of the company map. */
  datatype Item = Item(name: string, hasProfile: bool, jobs: nat, leads: nat, signals: nat, tier: nat, sortKey: string)

  /** `_non_empty_str`. */
  function NonEmpty(value: Option<string>): Option<string> {
    if value.None? || Strip(value.value) == "" then None else Some(Strip(value.value))
  }

  predicate Named(c: Contribution) {
    NonEmpty(c.name).Some?
  }

  function NameOf(c: Contribution): string {
    NonEmpty(c.name).GetOr("")
  }

  function SortKeyOf(c: Contribution): string {
    NonEmpty(c.sortKey).GetOr(NameOf(c))
  }

  function KeyOf(fold: Folding, c: Contribution): string {
    fold(NameOf(c))
  }

  // ----- the group-by -----

  function Group(fold: Folding, cs: seq<Contribution>, key: string): seq<Contribution> {
    if cs == [] then []
    else
      var last := cs[|cs| - 1];
      Group(fold, cs[..|cs| - 1], key) + (if Named(last) && KeyOf(fold, last) == key then [last] else [])
  }

  /** The keys in the order they first appear. */
  function Keys(fold: Folding, cs: seq<Contribution>): seq<string> {
    if cs == [] then []
    else
      var front, last := Keys(fold, cs[..|cs| - 1]), cs[|cs| - 1];
      if Named(last) && KeyOf(fold, last) !in front then front + [KeyOf(fold, last)] else front
  }

  datatype Count = Jobs | Leads | Signals

  function Given(which: Count, c: Contribution): nat {
    match which
    case Jobs => c.jobs
    case Leads => c.leads
    case Signals => c.signals
  }

  function Shown(which: Count, item: Item): nat {
    match which
    case Jobs => item.jobs
    case Leads => item.leads
    case Signals => item.signals
  }

  function Sum(which: Count, cs: seq<Contribution>): nat {
    if cs == [] then 0 else Sum(which, cs[..|cs| - 1]) + Given(which, cs[|cs| - 1])
  }

  /** The last profile names a company; without one, the first row that mentions it does. */
  function Owner(group: seq<Contribution>): Contribution
    requires group != []
  {
    if |group| > 1 && !group[|group| - 1].hasProfile then Owner(group[..|group| - 1]) else group[|group| - 1]
  }

  function ItemOf(group: seq<Contribution>): Item
    requires group != []
  {
    Item(NameOf(Owner(group)), group[0].hasProfile, Sum(Jobs, group), Sum(Leads, group), Sum(Signals, group),
         group[0].tier, SortKeyOf(Owner(group)))
  }

  lemma {:induction false} KeysAreDistinct(fold: Folding, cs: seq<Contribution>)
    ensures forall i, j :: 0 <= i < j < |Keys(fold, cs)| ==> Keys(fold, cs)[i] != Keys(fold, cs)[j]
    ensures forall key :: key in Keys(fold, cs) <==> Group(fold, cs, key) != []
  {
    if cs == [] {
    } else {
      KeysAreDistinct(fold, cs[..|cs| - 1]);
    }
  }

  function Items(fold: Folding, cs: seq<Contribution>): (items: seq<Item>)
    ensures |items| == |Keys(fold, cs)|
    ensures forall i :: 0 <= i < |items| ==>
              Group(fold, cs, Keys(fold, cs)[i]) != [] && items[i] == ItemOf(Group(fold, cs, Keys(fold, cs)[i]))
  {
    KeysAreDistinct(fold, cs);
    seq(|Keys(fold, cs)|, i requires 0 <= i < |Keys(fold, cs)| => ItemOf(Group(fold, cs, Keys(fold, cs)[i])))
  }

  /** The three loops run profiles, then leads, then signals; only profiles have a profile. */
  predicate Tiered(cs: seq<Contribution>) {
    && (forall i, j :: 0 <= i < j < |cs| ==> cs[i].tier <= cs[j].tier)
    && (forall c <- cs :: c.hasProfile <==> c.tier == 0)
  }

  // ----- the map -----

  /** The dictionary's entries after some contributions; it iterates in the order its keys were first set. */
  ghost predicate Holds(fold: Folding, keys: seq<string>, items: map<string, Item>, added: seq<Contribution>) {
    && keys == Keys(fold, added)
    && (forall key :: key in items <==> key in keys)
    && (forall key <- items :: Group(fold, added, key) != [] && items[key] == ItemOf(Group(fold, added, key)))
  }

  /** An entry as `setdefault` makes it. */
  function Fresh(c: Contribution): Item {
    Item(NameOf(c), false, 0, 0, 0, c.tier, SortKeyOf(c))
  }

  /** What `ensure_company` and its caller do to the entry of a contribution, new or not. */
  method Merge(current: Item, c: Contribution, ghost group: seq<Contribution>) returns (item: Item)
    requires current == (if group == [] then Fresh(c) else ItemOf(group))
    requires Tiered(group) && (c.hasProfile <==> c.tier == 0) && forall d <- group :: d.tier <= c.tier
    ensures item == ItemOf(group + [c])
  {
    hide NameOf, SortKeyOf, Tiered, Owner, Sum;
    ItemGrows(group, c);
    assert group == [] ==> group + [c] == [c];
    item := current;
    item := item.(hasProfile := item.hasProfile || c.hasProfile);
    if c.tier < item.tier {
      item := item.(sortKey := SortKeyOf(c));
    }
    item := item.(tier := if c.tier < item.tier then c.tier else item.tier);
    if c.hasProfile {
      item := item.(name := NameOf(c), sortKey := SortKeyOf(c));
    }
    item := item.(jobs := item.jobs + c.jobs, leads := item.leads + c.leads, signals := item.signals + c.signals);
  }

  /** The dictionary `ensure_company` closes over. */
  class CompanyMap {
    const fold: Folding
    var keys: seq<string>
    var items: map<string, Item>
    ghost var added: seq<Contribution>

    ghost predicate Valid()
      reads this
    {
      Tiered(added) && Holds(fold, keys, items, added)
    }

    constructor (fold: Folding)
      ensures Valid() && this.fold == fold && added == []
    {
      this.fold := fold;
      keys, items, added := [], map[], [];
    }

    /** `ensure_company`, and the count its caller adds to the item it returns. */
    method Add(c: Contribution)
      requires Valid() && (c.hasProfile <==> c.tier == 0) && forall d <- added :: d.tier <= c.tier
      modifies this
      ensures Valid() && added == old(added) + [c]
    {
      hide Group, Keys, ItemOf, Named, KeyOf, Tiered, Fresh;
      TieredLonger(added, c);
      KeysAreDistinct(fold, added);
      if !Named(c) {
        UnnamedHolds(fold, keys, items, added, c);
      } else {
        var key := KeyOf(fold, c);
        ghost var group := Group(fold, added, key);
        GroupIsTiered(fold, added, key);
        GroupMembers(fold, added, key);
        var item := Merge(if key in items then items[key] else Fresh(c), c, group);
        NamedHolds(fold, keys, items, added, c, item);
        keys := if key in items then keys else keys + [key];
        items := items[key := item];
      }
      added := added + [c];
    }
  }

  lemma UnnamedHolds(fold: Folding, keys: seq<string>, items: map<string, Item>, added: seq<Contribution>,
                     c: Contribution)
    requires Holds(fold, keys, items, added) && !Named(c)
    ensures Holds(fold, keys, items, added + [c])
  {
    hide Group, Keys, ItemOf, Named;
    AppendGroups(fold, added, c);
  }

  lemma NamedHolds(fold: Folding, keys: seq<string>, items: map<string, Item>, added: seq<Contribution>,
                   c: Contribution, item: Item)
    requires Holds(fold, keys, items, added) && Named(c) && item == ItemOf(Group(fold, added, KeyOf(fold, c)) + [c])
    ensures var key := KeyOf(fold, c);
            Holds(fold, if key in items then keys else keys + [key], items[key := item], added + [c])
  {
    hide Group, Keys, ItemOf, Named, KeyOf;
    AppendGroups(fold, added, c);
  }

  lemma TieredLonger(cs: seq<Contribution>, c: Contribution)
    requires Tiered(cs) && (c.hasProfile <==> c.tier == 0) && forall d <- cs :: d.tier <= c.tier
    ensures Tiered(cs + [c])
  {
  }

  lemma AppendGroups(fold: Folding, cs: seq<Contribution>, c: Contribution)
    ensures forall key ::
              Group(fold, cs + [c], key) ==
                (if Named(c) && KeyOf(fold, c) == key then Group(fold, cs, key) + [c] else Group(fold, cs, key))
    ensures Keys(fold, cs + [c]) ==
            (if Named(c) &&
             KeyOf(fold, c) !in Keys(fold, cs) then Keys(fold, cs) + [KeyOf(fold, c)] else Keys(fold, cs))
  {
    assert (cs + [c])[..|cs|] == cs;
  }

  /** A group holds the contributions under its key. */
  lemma {:induction false} GroupMembers(fold: Folding, cs: seq<Contribution>, key: string)
    ensures forall c :: c in Group(fold, cs, key) <==> c in cs && Named(c) && KeyOf(fold, c) == key
  {
    hide Named, KeyOf;
    if cs == [] {
    } else {
      GroupMembers(fold, cs[..|cs| - 1], key);
      assert cs == cs[..|cs| - 1] + [cs[|cs| - 1]];
    }
  }

  lemma {:induction false} GroupIsTiered(fold: Folding, cs: seq<Contribution>, key: string)
    requires Tiered(cs)
    ensures Tiered(Group(fold, cs, key))
  {
    hide Named, KeyOf;
    if cs == [] {
    } else {
      var front, last := cs[..|cs| - 1], cs[|cs| - 1];
      GroupIsTiered(fold, front, key);
      GroupMembers(fold, front, key);
      forall c | c in Group(fold, front, key) ensures c.tier <= last.tier {
        var i :| 0 <= i < |front| && front[i] == c;
        assert cs[i] == c;
      }
      TieredLonger(Group(fold, front, key), last);
    }
  }

  /** An item is what the contributions so far make it, once each update is applied. */
  lemma ItemGrows(group: seq<Contribution>, c: Contribution)
    requires Tiered(group) && (c.hasProfile <==> c.tier == 0) && forall d <- group :: d.tier <= c.tier
    ensures ItemOf([c]) == Item(NameOf(c), c.hasProfile, c.jobs, c.leads, c.signals, c.tier, SortKeyOf(c))
    ensures group != [] ==>
              var item := ItemOf(group);
              && item.tier <= c.tier && (c.hasProfile ==> item.hasProfile)
              && ItemOf(group + [c]) ==
                 Item(if c.hasProfile then NameOf(c) else item.name, item.hasProfile, item.jobs + c.jobs,
                      item.leads + c.leads,
                      item.signals + c.signals, item.tier, if c.hasProfile then SortKeyOf(c) else item.sortKey)
  {
    hide NameOf, SortKeyOf;
    SumLonger(Jobs, [], c);
    SumLonger(Leads, [], c);
    SumLonger(Signals, [], c);
    assert [] + [c] == [c];
    if group != [] {
      SumLonger(Jobs, group, c);
      SumLonger(Leads, group, c);
      SumLonger(Signals, group, c);
      assert (group + [c])[..|group|] == group;
      assert group[0] in group;
    }
  }

  lemma SumLonger(which: Count, cs: seq<Contribution>, c: Contribution)
    ensures Sum(which, cs + [c]) == Sum(which, cs) + Given(which, c)
  {
    assert (cs + [c])[..|cs|] == cs;
  }

  // ----- what the rows are, whatever the order -----

  /** An item's tier is the smallest contributed; a profile in its group decides its flag, name and sort key. */
  lemma ItemIsSummary(group: seq<Contribution>)
    requires Tiered(group) && group != []
    ensures var item := ItemOf(group);
            && (forall c <- group :: item.tier <= c.tier) && (exists c <- group :: item.tier == c.tier)
            && (item.hasProfile <==> exists c <- group :: c.hasProfile)
            && (exists c <- group :: item.name == NameOf(c) && item.sortKey == SortKeyOf(c) && c.tier == item.tier)
  {
    hide Sum, NameOf, SortKeyOf, Owner;
    OwnerIsInTier(group);
    assert group[0] in group;
    forall c | c in group ensures group[0].tier <= c.tier {
      var i :| 0 <= i < |group| && group[i] == c;
    }
  }

  lemma {:induction false} OwnerIsInTier(group: seq<Contribution>)
    requires group != [] && Tiered(group)
    ensures Owner(group) in group && Owner(group).tier == group[0].tier
  {
    var last := |group| - 1;
    if last > 0 && !group[last].hasProfile {
      OwnerIsInTier(group[..last]);
    } else if last > 0 {
      assert group[0].tier <= group[last].tier;
    }
  }

  // ----- conservation -----

  function Total(which: Count, fold: Folding, cs: seq<Contribution>, keys: seq<string>): nat {
    if keys == [] then 0
    else Total(which, fold, cs, keys[..|keys| - 1]) + Sum(which, Group(fold, cs, keys[|keys| - 1]))
  }

  function NamedOnly(cs: seq<Contribution>): seq<Contribution> {
    if cs == [] then []
    else NamedOnly(cs[..|cs| - 1]) + (if Named(cs[|cs| - 1]) then [cs[|cs| - 1]] else [])
  }

  /** Adding a contribution adds its count under its key, once. */
  lemma {:induction false} TotalGrows(which: Count, fold: Folding, cs: seq<Contribution>, c: Contribution,
                                      keys: seq<string>)
    requires forall i, j :: 0 <= i < j < |keys| ==> keys[i] != keys[j]
    ensures Total(which, fold, cs + [c], keys) ==
            Total(which, fold, cs, keys) + (if Named(c) && KeyOf(fold, c) in keys then Given(which, c) else 0)
  {
    hide Named, KeyOf, Group, Sum, Given;
    if keys == [] {
    } else {
      var front, last := keys[..|keys| - 1], keys[|keys| - 1];
      TotalGrows(which, fold, cs, c, front);
      KeySumGrows(which, fold, cs, c, last);
      assert KeyOf(fold, c) in keys <==> KeyOf(fold, c) in front || KeyOf(fold, c) == last by {
        assert keys == front + [last];
      }
    }
  }

  lemma KeySumGrows(which: Count, fold: Folding, cs: seq<Contribution>, c: Contribution, key: string)
    ensures Sum(which, Group(fold, cs + [c], key)) ==
            Sum(which, Group(fold, cs, key)) + (if Named(c) && KeyOf(fold, c) == key then Given(which, c) else 0)
  {
    hide Named, KeyOf, Group, Sum, Keys;
    AppendGroups(fold, cs, c);
    SumLonger(which, Group(fold, cs, key), c);
  }

  /** A key that is new with a contribution had nothing under it. */
  lemma NewKeyAddsNothing(which: Count, fold: Folding, cs: seq<Contribution>, c: Contribution)
    ensures Total(which, fold, cs, Keys(fold, cs + [c])) == Total(which, fold, cs, Keys(fold, cs))
    ensures Named(c) ==> KeyOf(fold, c) in Keys(fold, cs + [c])
  {
    hide Named, KeyOf, Group, Keys;
    AppendGroups(fold, cs, c);
    if Keys(fold, cs + [c]) != Keys(fold, cs) {
      KeysAreDistinct(fold, cs);
      var keys := Keys(fold, cs + [c]);
      assert keys[..|keys| - 1] == Keys(fold, cs);
      assert Sum(which, Group(fold, cs, KeyOf(fold, c))) == 0;
    }
  }

  /** No count is lost or counted twice: over all keys, the sums are those of the named contributions. */
  lemma {:induction false} CountsAreConserved(which: Count, fold: Folding, cs: seq<Contribution>)
    ensures Total(which, fold, cs, Keys(fold, cs)) == Sum(which, NamedOnly(cs))
  {
    if cs == [] {
      assert Keys(fold, cs) == [] && NamedOnly(cs) == [];
    } else {
      hide Named, KeyOf, Group, Keys, Total, Sum;
      var front, last := cs[..|cs| - 1], cs[|cs| - 1];
      assert cs == front + [last];
      CountsAreConserved(which, fold, front);
      KeysAreDistinct(fold, cs);
      NewKeyAddsNothing(which, fold, front, last);
      TotalGrows(which, fold, front, last, Keys(fold, cs));
      SumLonger(which, NamedOnly(front), last);
      assert !Named(last) ==> NamedOnly(cs) == NamedOnly(front);
    }
  }

  function SumItems(which: Count, items: seq<Item>): nat {
    if items == [] then 0 else Shown(which, items[0]) + SumItems(which, items[1..])
  }

  lemma {:induction false} SumItemsLonger(which: Count, items: seq<Item>, item: Item)
    ensures SumItems(which, items + [item]) == SumItems(which, items) + Shown(which, item)
  {
    if items == [] {
      assert items + [item] == [item];
    } else {
      assert (items + [item])[1..] == items[1..] + [item];
      SumItemsLonger(which, items[1..], item);
    }
  }

  lemma ShownIsSum(which: Count, group: seq<Contribution>)
    requires group != []
    ensures Shown(which, ItemOf(group)) == Sum(which, group)
  {
  }

  lemma {:induction false} ItemsTotal(which: Count, fold: Folding, cs: seq<Contribution>, n: nat)
    requires n <= |Keys(fold, cs)|
    ensures SumItems(which, Items(fold, cs)[..n]) == Total(which, fold, cs, Keys(fold, cs)[..n])
  {
    hide Group, Keys, Sum, ItemOf;
    if n == 0 {
    } else {
      ItemsTotal(which, fold, cs, n - 1);
      ShownIsSum(which, Group(fold, cs, Keys(fold, cs)[n - 1]));
      var items, keys := Items(fold, cs), Keys(fold, cs);
      assert items[..n] == items[..n - 1] + [items[n - 1]];
      assert keys[..n][..n - 1] == keys[..n - 1];
      SumItemsLonger(which, items[..n - 1], items[n - 1]);
    }
  }

  // ----- sorting -----

  predicate TextLe(a: string, b: string) {
    a == "" || (b != "" && (a[0] < b[0] || (a[0] == b[0] && TextLe(a[1..], b[1..]))))
  }

  /** The sort key's order: the tier, then the folded sort key. */
  predicate Le(fold: Folding, a: Item, b: Item) {
    a.tier < b.tier || (a.tier == b.tier && TextLe(fold(a.sortKey), fold(b.sortKey)))
  }

  lemma {:induction false} TextLeIsTotal(a: string, b: string)
    ensures TextLe(a, b) || TextLe(b, a)
  {
    if a != "" && b != "" { TextLeIsTotal(a[1..], b[1..]); }
  }

  lemma {:induction false} TextLeIsTransitive(a: string, b: string, c: string)
    requires TextLe(a, b) && TextLe(b, c)
    ensures TextLe(a, c)
  {
    if a != "" && a[0] == b[0] == c[0] { TextLeIsTransitive(a[1..], b[1..], c[1..]); }
  }

  lemma LeIsTransitive(fold: Folding, a: Item, b: Item, c: Item)
    requires Le(fold, a, b) && Le(fold, b, c)
    ensures Le(fold, a, c)
  {
    if a.tier == b.tier == c.tier { TextLeIsTransitive(fold(a.sortKey), fold(b.sortKey), fold(c.sortKey)); }
  }

  /** Before every item it is not greater than, so that equals keep their order. */
  function Insert(fold: Folding, item: Item, sorted: seq<Item>): seq<Item> {
    if sorted == [] || Le(fold, item, sorted[0]) then [item] + sorted
    else [sorted[0]] + Insert(fold, item, sorted[1..])
  }

  /** A stable sort, as `sorted` is. */
  function Sort(fold: Folding, items: seq<Item>): seq<Item> {
    if items == [] then [] else Insert(fold, items[0], Sort(fold, items[1..]))
  }

  predicate InOrder(fold: Folding, items: seq<Item>) {
    forall i, j :: 0 <= i < j < |items| ==> Le(fold, items[i], items[j])
  }

  lemma {:induction false} InsertSorts(fold: Folding, item: Item, sorted: seq<Item>)
    requires InOrder(fold, sorted)
    ensures InOrder(fold, Insert(fold, item, sorted))
    ensures multiset(Insert(fold, item, sorted)) == multiset(sorted) + multiset{item}
    decreases |sorted|
  {
    hide Le;
    if sorted == [] {
    } else {
      assert sorted == [sorted[0]] + sorted[1..];
      if Le(fold, item, sorted[0]) {
        forall j | 0 < j < |sorted| ensures Le(fold, item, sorted[j]) {
          LeIsTransitive(fold, item, sorted[0], sorted[j]);
        }
      } else {
        var rest := Insert(fold, item, sorted[1..]);
        InsertSorts(fold, item, sorted[1..]);
        NotLeIsGe(fold, item, sorted[0]);
        forall j | 0 <= j < |rest| ensures Le(fold, sorted[0], rest[j]) {
          assert rest[j] in multiset(rest);
          assert rest[j] == item || rest[j] in sorted[1..];
        }
      }
    }
  }

  lemma NotLeIsGe(fold: Folding, a: Item, b: Item)
    requires !Le(fold, a, b)
    ensures Le(fold, b, a)
  {
    TextLeIsTotal(fold(a.sortKey), fold(b.sortKey));
  }

  lemma {:induction false} SortSorts(fold: Folding, items: seq<Item>)
    ensures InOrder(fold, Sort(fold, items)) && multiset(Sort(fold, items)) == multiset(items)
  {
    if items == [] {
    } else {
      SortSorts(fold, items[1..]);
      InsertSorts(fold, items[0], Sort(fold, items[1..]));
      assert items == [items[0]] + items[1..];
    }
  }

  lemma {:induction false} InsertKeepsSum(which: Count, fold: Folding, item: Item, sorted: seq<Item>)
    ensures SumItems(which, Insert(fold, item, sorted)) == Shown(which, item) + SumItems(which, sorted)
    decreases |sorted|
  {
    hide Le;
    if sorted == [] || Le(fold, item, sorted[0]) {
      assert ([item] + sorted)[1..] == sorted;
    } else {
      InsertKeepsSum(which, fold, item, sorted[1..]);
      var rest := Insert(fold, item, sorted[1..]);
      assert ([sorted[0]] + rest)[1..] == rest;
    }
  }

  lemma {:induction false} SortKeepsSum(which: Count, fold: Folding, items: seq<Item>)
    ensures SumItems(which, Sort(fold, items)) == SumItems(which, items)
  {
    if items == [] {
    } else {
      SortKeepsSum(which, fold, items[1..]);
      InsertKeepsSum(which, fold, items[0], Sort(fold, items[1..]));
    }
  }

  // ----- the listing -----

  datatype Company = Company(name: string, hasProfile: bool, jobs: nat, leads: nat, signals: nat, totalRecords: nat)

  datatype Listing = Listing(keyword: Option<string>, totalCount: nat, count: nat, companies: seq<Company>,
                             allCompanies: seq<Company>)

  predicate Contains(s: string, part: string) {
    exists i :: 0 <= i <= |s| && part <= s[i..]
  }

  predicate Matches(fold: Folding, keyword: Option<string>, item: Item) {
    keyword.Some? && fold(keyword.value) != "" ==> Contains(fold(item.name), fold(keyword.value))
  }

  function Matching(fold: Folding, keyword: Option<string>, items: seq<Item>): seq<Item> {
    if items == [] then []
    else Matching(fold, keyword, items[..|items| - 1]) +
         (if Matches(fold, keyword, items[|items| - 1]) then [items[|items| - 1]] else [])
  }

  function CompanyOf(item: Item): Company {
    Company(item.name, item.hasProfile, item.jobs, item.leads, item.signals, item.jobs + item.leads + item.signals)
  }

  /** `_bounded_int` with the list's bounds; a limit may be missing or unreadable. */
  function Limit(limit: Option<Option<int>>): (n: nat)
    ensures 1 <= n <= 100
  {
    var parsed := match limit case Some(Some(v)) => v case _ => 20;
    var low := if parsed < 100 then parsed else 100;
    if low < 1 then 1 else low
  }

  datatype ProfileRow = ProfileRow(name: Option<string>, normalizedName: Option<string>, jobs: nat)

  datatype CountRow = CountRow(name: Option<string>, count: nat)

  function ProfileContribution(r: ProfileRow): Contribution {
    Contribution(r.name, true, 0, r.normalizedName, r.jobs, 0, 0)
  }

  function LeadContribution(r: CountRow): Contribution {
    Contribution(r.name, false, 1, None, 0, r.count, 0)
  }

  function SignalContribution(r: CountRow): Contribution {
    Contribution(r.name, false, 2, None, 0, 0, r.count)
  }

  function Contributions(profiles: seq<ProfileRow>, leads: seq<CountRow>, signals: seq<CountRow>): seq<Contribution> {
    seq(|profiles|, i requires 0 <= i < |profiles| => ProfileContribution(profiles[i])) +
    seq(|leads|, i requires 0 <= i < |leads| => LeadContribution(leads[i])) +
    seq(|signals|, i requires 0 <= i < |signals| => SignalContribution(signals[i]))
  }

  /** The rows listed, before they are rendered. */
  function Listed(fold: Folding, cs: seq<Contribution>, keyword: Option<string>): seq<Item> {
    Matching(fold, NonEmpty(keyword), Sort(fold, Items(fold, cs)))
  }

  lemma {:induction false} MatchingAll(fold: Folding, items: seq<Item>)
    ensures Matching(fold, None, items) == items
  {
    if items == [] {
    } else {
      MatchingAll(fold, items[..|items| - 1]);
      assert items == items[..|items| - 1] + [items[|items| - 1]];
    }
  }

  lemma {:induction false} MatchingMembers(fold: Folding, keyword: Option<string>, items: seq<Item>)
    ensures forall item :: item in Matching(fold, keyword, items) <==> item in items && Matches(fold, keyword, item)
  {
    hide Matches;
    if items == [] {
    } else {
      MatchingMembers(fold, keyword, items[..|items| - 1]);
      assert items == items[..|items| - 1] + [items[|items| - 1]];
    }
  }

  /** A keyword keeps exactly the rows whose folded name contains it, in order. */
  lemma {:induction false} MatchingKeepsOrder(fold: Folding, keyword: Option<string>, items: seq<Item>)
    requires InOrder(fold, items)
    ensures InOrder(fold, Matching(fold, keyword, items))
    ensures forall item :: item in Matching(fold, keyword, items) <==> item in items && Matches(fold, keyword, item)
  {
    hide Le, Matches;
    MatchingMembers(fold, keyword, items);
    if items == [] {
    } else {
      var front, last := items[..|items| - 1], items[|items| - 1];
      MatchingKeepsOrder(fold, keyword, front);
      forall i | 0 <= i < |Matching(fold, keyword, front)| ensures Le(fold, Matching(fold, keyword, front)[i], last) {
        var item := Matching(fold, keyword, front)[i];
        assert item in front;
        var k :| 0 <= k < |front| && front[k] == item;
        assert items[k] == item;
      }
    }
  }

  /**
   Without a keyword: one row for each distinct folded name, sorted by tier and folded sort key, and the jobs, leads and
   signals of all rows add up to those of all rows of the queries that have a name.
   */
  lemma FullListingConserves(fold: Folding, cs: seq<Contribution>)
    requires Tiered(cs)
    ensures var rows := Listed(fold, cs, None);
            && |rows| == |Keys(fold, cs)| && multiset(rows) == multiset(Items(fold, cs)) && InOrder(fold, rows)
            && SumItems(Jobs, rows) == Sum(Jobs, NamedOnly(cs))
            && SumItems(Leads, rows) == Sum(Leads, NamedOnly(cs))
            && SumItems(Signals, rows) == Sum(Signals, NamedOnly(cs))
  {
    hide Group, Keys, Items, Insert, Le, Sum, Total;
    var items, keys := Items(fold, cs), Keys(fold, cs);
    var sorted := Sort(fold, items);
    MatchingAll(fold, sorted);
    SortSorts(fold, items);
    assert |sorted| == |multiset(sorted)| == |items|;
    assert items[..|keys|] == items && keys[..|keys|] == keys;
    FieldConserved(Jobs, fold, cs);
    FieldConserved(Leads, fold, cs);
    FieldConserved(Signals, fold, cs);
  }

  lemma FieldConserved(which: Count, fold: Folding, cs: seq<Contribution>)
    ensures SumItems(which, Sort(fold, Items(fold, cs))) == Sum(which, NamedOnly(cs))
  {
    hide Group, Keys, Insert, Sum, Total, NamedOnly;
    var items, keys := Items(fold, cs), Keys(fold, cs);
    assert items[..|keys|] == items && keys[..|keys|] == keys;
    ItemsTotal(which, fold, cs, |keys|);
    CountsAreConserved(which, fold, cs);
    SortKeepsSum(which, fold, items);
  }

  lemma ContributionsGrow(p: seq<ProfileRow>, l: seq<CountRow>, s: seq<CountRow>, i: nat)
    ensures i < |p| ==> Contributions(p[..i + 1], [], []) == Contributions(p[..i], [], []) + [ProfileContribution(p[i])]
    ensures i < |l| ==> Contributions(p, l[..i + 1], []) == Contributions(p, l[..i], []) + [LeadContribution(l[i])]
    ensures i < |s| ==> Contributions(p, l, s[..i + 1]) == Contributions(p, l, s[..i]) + [SignalContribution(s[i])]
  {
  }

  lemma ContributionsTiered(p: seq<ProfileRow>, l: seq<CountRow>, s: seq<CountRow>)
    ensures Tiered(Contributions(p, l, s))
    ensures forall c <- Contributions(p, l, s) :: c.tier <= (if s != [] then 2 else if l != [] then 1 else 0)
  {
  }

  /** The three loops over the queries' rows. */
  method Collect(fold: Folding, profiles: seq<ProfileRow>, leads: seq<CountRow>, signals: seq<CountRow>)
    returns (companies: CompanyMap)
    ensures fresh(companies) && companies.Valid() && companies.fold == fold
    ensures companies.added == Contributions(profiles, leads, signals)
  {
    hide Group, Keys, ItemOf, Tiered, Contributions;
    companies := new CompanyMap(fold);
    assert Contributions([], [], []) == [] by { Nothing(); }
    assert profiles[..0] == [] && leads[..0] == [] && signals[..0] == [];
    for i := 0 to |profiles|
      invariant companies.Valid() && companies.fold == fold && fresh(companies)
      invariant companies.added == Contributions(profiles[..i], [], [])
    {
      ContributionsTiered(profiles[..i], [], []);
      ContributionsGrow(profiles, [], [], i);
      companies.Add(ProfileContribution(profiles[i]));
    }
    assert profiles[..|profiles|] == profiles;
    for i := 0 to |leads|
      invariant companies.Valid() && companies.fold == fold && fresh(companies)
      invariant companies.added == Contributions(profiles, leads[..i], [])
    {
      ContributionsTiered(profiles, leads[..i], []);
      ContributionsGrow(profiles, leads, [], i);
      companies.Add(LeadContribution(leads[i]));
    }
    assert leads[..|leads|] == leads;
    for i := 0 to |signals|
      invariant companies.Valid() && companies.fold == fold && fresh(companies)
      invariant companies.added == Contributions(profiles, leads, signals[..i])
    {
      ContributionsTiered(profiles, leads, signals[..i]);
      ContributionsGrow(profiles, leads, signals, i);
      companies.Add(SignalContribution(signals[i]));
    }
    assert signals[..|signals|] == signals;
  }

  lemma Nothing()
    ensures Contributions([], [], []) == []
  {
  }

  /** `_database_company_list`: the three loops, the sort, the keyword and the page. */
  method DatabaseCompanyList(
      fold: Folding, profiles: seq<ProfileRow>, leads: seq<CountRow>, signals: seq<CountRow>,
      keyword: Option<string>, limit: Option<Option<int>>) returns (listing: Listing, ghost rows: seq<Item>)
    ensures rows == Listed(fold, Contributions(profiles, leads, signals), keyword)
    ensures |listing.allCompanies| == |rows| && forall i :: 0 <= i < |rows| ==>
            listing.allCompanies[i] == CompanyOf(rows[i])
    ensures InOrder(fold, rows)
    ensures listing.keyword == NonEmpty(keyword) && listing.totalCount == |rows|
    ensures listing.companies <= listing.allCompanies && |listing.companies| == listing.count
    ensures listing.count == if Limit(limit) < |rows| then Limit(limit) else |rows|
  {
    hide Group, Keys, ItemOf, Matches, Insert, Le, Sort, Contributions, Tiered, Matching, CompanyOf, NonEmpty;
    var companies := Collect(fold, profiles, leads, signals);
    var items: seq<Item> := [];
    for i := 0 to |companies.keys|
      invariant companies.Valid()
      invariant |items| == i && forall k :: 0 <= k < i ==> items[k] == Items(fold, companies.added)[k]
    {
      items := items + [companies.items[companies.keys[i]]];
    }
    assert items == Items(fold, companies.added);
    var sorted := Sort(fold, items);
    SortSorts(fold, items);
    MatchingKeepsOrder(fold, NonEmpty(keyword), sorted);
    rows := Listed(fold, companies.added, keyword);
    var all := Render(fold, NonEmpty(keyword), sorted);
    var n := if Limit(limit) < |all| then Limit(limit) else |all|;
    listing := Listing(NonEmpty(keyword), |all|, n, all[..n], all);
  }

  /** The loop over the sorted rows. */
  method Render(fold: Folding, keyword: Option<string>, sorted: seq<Item>) returns (companies: seq<Company>)
    ensures |companies| == |Matching(fold, keyword, sorted)|
    ensures forall i :: 0 <= i < |companies| ==> companies[i] == CompanyOf(Matching(fold, keyword, sorted)[i])
  {
    hide Matches;
    companies := [];
    for i := 0 to |sorted|
      invariant |companies| == |Matching(fold, keyword, sorted[..i])|
      invariant forall k :: 0 <= k < |companies| ==> companies[k] == CompanyOf(Matching(fold, keyword, sorted[..i])[k])
    {
      assert sorted[..i + 1][..i] == sorted[..i];
      if Matches(fold, keyword, sorted[i]) {
        companies := companies + [CompanyOf(sorted[i])];
      }
    }
    assert sorted[..|sorted|] == sorted;
  }
}
