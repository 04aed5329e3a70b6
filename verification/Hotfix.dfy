/**
 * The hotfix posture projection: ordered, capped lists of installed and pending updates, and the roll-up by category.
 */
module Hotfix {
  import opened Text
  import opened StableSorting

  const MAX_INSTALLED := 512
  const MAX_PENDING := 20

  datatype Category =
    | Security | Definition | Critical | Important | Driver | UpdateRollup | FeaturePack | ServicePack
    | Optional | Tools | Uncategorized

  datatype Severity = CriticalSeverity | ImportantSeverity | ModerateSeverity | LowSeverity | Unspecified

  function CategoryRank(c: Category): (r: int) {
    match c
    case Security => 0
    case Definition => 1
    case Critical => 2
    case Important => 3
    case Driver => 4
    case UpdateRollup => 5
    case FeaturePack => 6
    case ServicePack => 7
    case Optional => 8
    case Tools => 9
    case Uncategorized => 99
  }

  function SeverityRank(s: Severity): int {
    match s
    case CriticalSeverity => 0
    case ImportantSeverity => 1
    case ModerateSeverity => 2
    case LowSeverity => 3
    case Unspecified => 99
  }

  function SeverityOf(msrc: string): Severity {
    var s := ToLower(TrimSpace(msrc));
    if s == "critical" then CriticalSeverity
    else if s == "important" then ImportantSeverity
    else if s == "moderate" then ModerateSeverity
    else if s == "low" then LowSeverity
    else Unspecified
  }

  // The primary category of a list of classification identifiers.

  const KNOWN: map<string, Category> := map[
    "0fa1201d-4330-4fa8-8ae9-b877473b6441" := Security,
    "e6cf1350-c01b-414d-a61f-263d14d133b4" := Critical,
    "e0789628-ce08-4437-be74-2495b842f43b" := Definition,
    "68c5b0a3-d1a6-4553-ae49-01d3a7827828" := ServicePack,
    "b54e7d24-7add-428f-8b75-90a396fa584f" := FeaturePack,
    "ebfd1a04-a2cc-49f1-9bce-6d93f0d5694b" := Driver,
    "28bc880e-0592-4cbf-8f95-c79b17911d5f" := UpdateRollup,
    "b4832bd8-e735-4761-8daf-37f882276dab" := Tools,
    "cd5ffd1e-e932-4e3a-bf74-18bf0b1bbd83" := Uncategorized]

  function Known(guid: string): Option<Category> {
    var key := ToLower(TrimSpace(guid));
    if key in KNOWN then Some(KNOWN[key]) else None
  }

  function Better(best: Category, found: Option<Category>): Category {
    if found.Some? && CategoryRank(found.value) < CategoryRank(best) then found.value else best
  }

  function Primary(known: string -> Option<Category>, guids: seq<string>): Category {
    if guids == [] then Uncategorized else Better(Primary(known, guids[..|guids| - 1]), known(guids[|guids| - 1]))
  }

  method PrimaryCategoryFromGuids(guids: seq<string>) returns (out: Category)
    ensures out == Primary(Known, guids)
  {
    out := Uncategorized;
    var bestRank := CategoryRank(out);
    for i := 0 to |guids|
      invariant bestRank == CategoryRank(out) && out == Primary(Known, guids[..i])
    {
      assert guids[..i + 1][..i] == guids[..i];
      var found := Known(guids[i]);
      if found.Some? && CategoryRank(found.value) < bestRank {
        bestRank := CategoryRank(found.value);
        out := found.value;
      }
    }
    assert guids[..|guids|] == guids;
  }

  /** The primary category is one of the known ones, or the default, and none that is known ranks before it. */
  lemma {:induction false} PrimaryIsBest(known: string -> Option<Category>, guids: seq<string>)
    ensures var best := Primary(known, guids);
            && (best == Uncategorized || exists g :: g in guids && known(g) == Some(best))
            && (forall g | g in guids && known(g).Some? :: CategoryRank(best) <= CategoryRank(known(g).value))
            && CategoryRank(best) <= CategoryRank(Uncategorized)
  {
    if guids != [] {
      var init := guids[..|guids| - 1];
      PrimaryIsBest(known, init);
      var last := guids[|guids| - 1];
      forall g | g in guids && known(g).Some?
        ensures CategoryRank(Primary(known, guids)) <= CategoryRank(known(g).value) {
        assert g in init || g == last;
      }
      assert last in guids;
      assert forall g | g in init :: g in guids;
    }
  }

  /** Neither the order of the identifiers nor repetition matters. */
  lemma PrimaryIgnoresOrder(known: string -> Option<Category>, a: seq<string>, b: seq<string>)
    requires forall g :: g in a <==> g in b
    ensures Primary(known, a) == Primary(known, b)
  {
    PrimaryIsBest(known, a);
    PrimaryIsBest(known, b);
  }

  // The installed list.

  datatype InstalledRow = InstalledRow(kbId: string, installedOn: Option<string>, description: string)
  datatype Installed = Installed(kbId: string, installedOn: Option<int>, description: string)

  function Clamp(s: string, max: nat): string {
    var t := TrimSpace(s);
    if |t| > max then t[..max] else t
  }

  function ToInstalled(parse: string -> Option<int>, row: InstalledRow): Installed {
    Installed(TrimSpace(row.kbId), if row.installedOn.Some? then parse(row.installedOn.value) else None,
              Clamp(row.description, 200))
  }

  function Kept(parse: string -> Option<int>, rows: seq<InstalledRow>): seq<Installed> {
    if rows == [] then []
    else
      var h := ToInstalled(parse, rows[|rows| - 1]);
      Kept(parse, rows[..|rows| - 1]) + if h.kbId == "" then [] else [h]
  }

  /** Newest first, undated last, then by identifier. */
  predicate InstalledLess(a: Installed, b: Installed) {
    if a.installedOn.Some? && b.installedOn.Some? && a.installedOn.value != b.installedOn.value then
      a.installedOn.value > b.installedOn.value
    else if a.installedOn.Some? && b.installedOn.None? then true
    else if a.installedOn.None? && b.installedOn.Some? then false
    else StringLess(a.kbId, b.kbId)
  }

  lemma StringLessIsStrictWeak(a: string, b: string, c: string)
    ensures !StringLess(a, a)
    ensures StringLess(a, b) && StringLess(b, c) ==> StringLess(a, c)
    ensures StringLess(a, c) ==> StringLess(a, b) || StringLess(b, c)
  {
    StringCompareFlip(a, a);
    StringCompareFlip(a, b);
    StringCompareFlip(b, c);
    StringCompareFlip(a, c);
    if StringLess(a, b) && StringLess(b, c) {
      StringCompareTransitive(a, b, c);
    }
    if !StringLess(a, b) && !StringLess(b, c) {
      StringCompareTransitive(c, b, a);
    }
  }

  lemma InstalledOrder()
    ensures StrictWeak(InstalledLess)
  {
    forall a: Installed, b: Installed, c: Installed
      ensures !InstalledLess(a, a)
      ensures InstalledLess(a, b) && InstalledLess(b, c) ==> InstalledLess(a, c)
      ensures InstalledLess(a, c) ==> InstalledLess(a, b) || InstalledLess(b, c)
    {
      StringLessIsStrictWeak(a.kbId, b.kbId, c.kbId);
    }
  }

  function First<T>(s: seq<T>, max: nat): seq<T> {
    if |s| > max then s[..max] else s
  }

  /** `list` is the front of the only stable arrangement of `all`, and nothing that was cut off belongs before it. */
  ghost predicate FrontOf<T(!new)>(less: (T, T) -> bool, all: seq<T>, max: nat, list: seq<T>, truncated: bool) {
    && list == First(StableSort(less, all), max)
    && (truncated <==> |all| > max)
    && IsStableSort(less, all, StableSort(less, all))
    && multiset(StableSort(less, all)) == multiset(all)
    && (forall i, j | 0 <= i < |list| <= j < |all| ::
          |StableSort(less, all)| == |all| && !less(StableSort(less, all)[j], list[i]))
  }

  lemma FrontOfSorted<T(!new)>(less: (T, T) -> bool, all: seq<T>, max: nat)
    requires StrictWeak(less)
    ensures FrontOf(less, all, max, First(StableSort(less, all), max), |all| > max)
  {
    SortIsStable(less, all);
    StableSortPermutes(less, all, StableSort(less, all));
    assert |StableSort(less, all)| == |multiset(StableSort(less, all))| == |all|;
  }

  method MapInstalled(parse: string -> Option<int>, rows: seq<InstalledRow>)
    returns (count: nat, truncated: bool, list: seq<Installed>)
    ensures count == |Kept(parse, rows)| && |list| == (if truncated then MAX_INSTALLED else count)
    ensures FrontOf(InstalledLess, Kept(parse, rows), MAX_INSTALLED, list, truncated)
  {
    var items: seq<Installed> := [];
    for i := 0 to |rows|
      invariant items == Kept(parse, rows[..i])
    {
      assert rows[..i + 1][..i] == rows[..i];
      var h := ToInstalled(parse, rows[i]);
      if h.kbId == "" {
        continue;
      }
      items := items + [h];
    }
    assert rows[..|rows|] == rows;
    InstalledOrder();
    FrontOfSorted(InstalledLess, items, MAX_INSTALLED);
    count, truncated := |items|, |items| > MAX_INSTALLED;
    list := First(StableSort(InstalledLess, items), MAX_INSTALLED);
    assert |StableSort(InstalledLess, items)| == |multiset(items)|;
  }

  // The pending list.

  datatype PendingRow = PendingRow(kbIds: seq<string>, guids: seq<string>, msrc: string)
  datatype Pending = Pending(kbIds: seq<string>, category: Category, severity: Severity)
  datatype Tally = Tally(category: Category, count: nat)

  function FirstId(ids: seq<string>): string {
    if ids == [] then "" else ids[0]
  }

  predicate PendingLess(a: Pending, b: Pending) {
    if SeverityRank(a.severity) != SeverityRank(b.severity) then SeverityRank(a.severity) < SeverityRank(b.severity)
    else if CategoryRank(a.category) != CategoryRank(b.category) then
      CategoryRank(a.category) < CategoryRank(b.category)
    else StringLess(FirstId(a.kbIds), FirstId(b.kbIds))
  }

  lemma PendingOrder()
    ensures StrictWeak(PendingLess)
  {
    forall a: Pending, b: Pending, c: Pending
      ensures !PendingLess(a, a)
      ensures PendingLess(a, b) && PendingLess(b, c) ==> PendingLess(a, c)
      ensures PendingLess(a, c) ==> PendingLess(a, b) || PendingLess(b, c)
    {
      StringLessIsStrictWeak(FirstId(a.kbIds), FirstId(b.kbIds), FirstId(c.kbIds));
    }
  }

  function ToPending(known: string -> Option<Category>, row: PendingRow): Pending {
    Pending(row.kbIds, Primary(known, row.guids), SeverityOf(row.msrc))
  }

  function Items(known: string -> Option<Category>, rows: seq<PendingRow>): (r: seq<Pending>)
    ensures |r| == |rows|
  {
    seq(|rows|, i requires 0 <= i < |rows| => ToPending(known, rows[i]))
  }

  // The roll-up.

  function Count(items: seq<Pending>, c: Category): nat {
    if items == [] then 0
    else Count(items[..|items| - 1], c) + if items[|items| - 1].category == c then 1 else 0
  }

  const CATEGORIES: seq<Category> :=
    [Security, Definition, Critical, Important, Driver, UpdateRollup, FeaturePack, ServicePack,
     Optional, Tools, Uncategorized]

  function Position(c: Category): (i: nat)
    ensures i < 11
  {
    if c == Uncategorized then 10 else CategoryRank(c)
  }

  lemma CategoryAt(i: nat, c: Category)
    requires i < 11
    ensures CATEGORIES[i] == c <==> Position(c) == i
  {
  }

  function Cell(items: seq<Pending>, c: Category): seq<Tally> {
    if Count(items, c) > 0 then [Tally(c, Count(items, c))] else []
  }

  /** The categories that occur, from the i-th on, each with its count, in rank order. */
  function RollupFrom(items: seq<Pending>, i: nat): seq<Tally>
    requires i <= 11
    decreases 11 - i
  {
    if i == 11 then [] else Cell(items, CATEGORIES[i]) + RollupFrom(items, i + 1)
  }

  predicate ByRank(a: Tally, b: Tally) {
    CategoryRank(a.category) < CategoryRank(b.category)
  }

  predicate Strict(s: seq<Tally>) {
    forall i, j | 0 <= i < j < |s| :: ByRank(s[i], s[j])
  }

  predicate Distinct(s: seq<Tally>) {
    forall i, j | 0 <= i < j < |s| :: s[i].category != s[j].category
  }

  predicate Counted(items: seq<Pending>, t: Tally) {
    t.count > 0 && t.count == Count(items, t.category)
  }

  lemma {:induction false} RollupMembers(items: seq<Pending>, i: nat, t: Tally)
    requires i <= 11
    ensures t in RollupFrom(items, i) <==> Counted(items, t) && Position(t.category) >= i
    decreases 11 - i
  {
    if i < 11 {
      RollupMembers(items, i + 1, t);
      CategoryAt(i, t.category);
      assert t in Cell(items, CATEGORIES[i]) <==> Counted(items, t) && t.category == CATEGORIES[i];
    }
  }

  lemma {:induction false} RollupIsStrict(items: seq<Pending>, i: nat)
    requires i <= 11
    ensures Strict(RollupFrom(items, i))
    decreases 11 - i
  {
    if i < 11 {
      RollupIsStrict(items, i + 1);
      var cell, rest := Cell(items, CATEGORIES[i]), RollupFrom(items, i + 1);
      CategoryAt(i, CATEGORIES[i]);
      if cell != [] {
        forall k | 0 <= k < |rest| ensures ByRank(cell[0], rest[k]) {
          RollupMembers(items, i + 1, rest[k]);
        }
        StrictCons(cell[0], rest);
      }
    }
  }

  lemma StrictCons(x: Tally, s: seq<Tally>)
    requires Strict(s) && forall k | 0 <= k < |s| :: ByRank(x, s[k])
    ensures Strict([x] + s)
  {
  }

  lemma {:induction false} SortDistinct(s: seq<Tally>)
    requires Distinct(s)
    ensures Strict(StableSort(ByRank, s)) && forall t :: t in StableSort(ByRank, s) <==> t in s
  {
    if s != [] {
      SortDistinct(s[1..]);
      InsertDistinct(s[0], StableSort(ByRank, s[1..]));
      assert s == [s[0]] + s[1..];
    }
  }

  lemma {:induction false} InsertDistinct(x: Tally, s: seq<Tally>)
    requires Strict(s) && forall t | t in s :: t.category != x.category
    ensures Strict(Insert(ByRank, x, s)) && forall t :: t in Insert(ByRank, x, s) <==> t == x || t in s
  {
    if s != [] {
      assert s == [s[0]] + s[1..];
      if ByRank(s[0], x) {
        InsertDistinct(x, s[1..]);
        var rest := Insert(ByRank, x, s[1..]);
        forall k | 0 <= k < |rest| ensures ByRank(s[0], rest[k]) {
          assert rest[k] in rest;
        }
        StrictCons(s[0], rest);
      } else {
        assert ByRank(x, s[0]);
        StrictCons(x, s);
      }
    }
  }

  lemma {:induction false} StrictIsUnique(s: seq<Tally>, t: seq<Tally>)
    requires Strict(s) && Strict(t) && forall x :: x in s <==> x in t
    ensures s == t
  {
    assert t != [] ==> t[0] in t;
    if s != [] {
      assert s[0] in t && t[0] in s;
      forall x ensures x in s[1..] <==> x in t[1..] {
        TailMember(s, x);
        TailMember(t, x);
      }
      StrictIsUnique(s[1..], t[1..]);
      assert s == [s[0]] + s[1..] && t == [t[0]] + t[1..];
    }
  }

  lemma TailMember(s: seq<Tally>, x: Tally)
    requires Strict(s) && s != []
    ensures x in s[1..] <==> x in s && x != s[0]
  {
    assert s == [s[0]] + s[1..];
  }

  /** The roll-up from the map of counts: whatever order the map is read in, one list comes out. */
  method RollUp(counts: map<Category, nat>, ghost items: seq<Pending>) returns (list: seq<Tally>)
    requires Counts(items, counts)
    ensures list == RollupFrom(items, 0)
  {
    var entries: seq<Tally> := [];
    var rest := counts.Keys;
    while rest != {}
      invariant rest <= counts.Keys && Distinct(entries)
      invariant forall t :: t in entries <==>
                  t.category in counts && t.category !in rest && t.count == counts[t.category]
      decreases |rest|
    {
      var c :| c in rest;
      entries, rest := entries + [Tally(c, counts[c])], rest - {c};
    }
    SortDistinct(entries);
    RollupIsStrict(items, 0);
    list := StableSort(ByRank, entries);
    forall t ensures t in list <==> t in RollupFrom(items, 0) {
      assert CountsAt(items, counts, t.category);
      RollupMembers(items, 0, t);
    }
    StrictIsUnique(list, RollupFrom(items, 0));
  }

  function Sum(list: seq<Tally>): nat {
    if list == [] then 0 else list[0].count + Sum(list[1..])
  }

  lemma {:induction false} SumGrows(items: seq<Pending>, i: nat)
    requires i <= 11 && items != []
    ensures Sum(RollupFrom(items, i)) ==
            Sum(RollupFrom(items[..|items| - 1], i)) + if Position(items[|items| - 1].category) >= i then 1 else 0
    decreases 11 - i
  {
    if i < 11 {
      SumGrows(items, i + 1);
      SumStep(items, i);
      SumStep(items[..|items| - 1], i);
      CategoryAt(i, items[|items| - 1].category);
    }
  }

  lemma SumStep(items: seq<Pending>, i: nat)
    requires i < 11
    ensures Sum(RollupFrom(items, i)) == Count(items, CATEGORIES[i]) + Sum(RollupFrom(items, i + 1))
  {
    SumCons(Cell(items, CATEGORIES[i]), RollupFrom(items, i + 1));
  }

  lemma SumCons(cell: seq<Tally>, rest: seq<Tally>)
    requires |cell| <= 1
    ensures Sum(cell + rest) == (if cell == [] then 0 else cell[0].count) + Sum(rest)
  {
    if cell == [] {
      assert cell + rest == rest;
    } else {
      assert (cell + rest)[1..] == rest;
    }
  }

  /** Nothing is lost in the roll-up, also when the list itself is cut: the counts add up to the number of updates. */
  lemma {:induction false} RollupAccountsForAll(items: seq<Pending>)
    ensures Sum(RollupFrom(items, 0)) == |items|
  {
    if items == [] {
      EmptyRollup(0);
    } else {
      RollupAccountsForAll(items[..|items| - 1]);
      SumGrows(items, 0);
    }
  }

  lemma {:induction false} EmptyRollup(i: nat)
    requires i <= 11
    ensures RollupFrom([], i) == []
    decreases 11 - i
  {
    if i < 11 {
      EmptyRollup(i + 1);
    }
  }

  /** One more row in the map of counts. */
  lemma CountMore(items: seq<Pending>, item: Pending, c: Category)
    ensures Count(items + [item], c) == Count(items, c) + if item.category == c then 1 else 0
  {
    assert (items + [item])[..|items|] == items;
  }

  ghost predicate Counts(items: seq<Pending>, counts: map<Category, nat>) {
    forall c :: CountsAt(items, counts, c)
  }

  predicate CountsAt(items: seq<Pending>, counts: map<Category, nat>, c: Category) {
    Count(items, c) == (if c in counts then counts[c] else 0) && (c in counts ==> counts[c] > 0)
  }

  lemma {:induction false} CountsMore(items: seq<Pending>, item: Pending, counts: map<Category, nat>, n: nat)
    requires Counts(items, counts) && n == (if item.category in counts then counts[item.category] else 0) + 1
    ensures Counts(items + [item], counts[item.category := n])
  {
    assert CountsAt(items, counts, item.category);
    var items', counts' := items + [item], counts[item.category := n];
    forall c ensures CountsAt(items', counts', c) {
      assert CountsAt(items, counts, c);
      CountMore(items, item, c);
    }
  }

  /** The items and the map of counts, filled row by row. */
  method CountPending(rows: seq<PendingRow>) returns (items: seq<Pending>, counts: map<Category, nat>)
    ensures items == Items(Known, rows) && Counts(items, counts)
  {
    items, counts := [], map[];
    for i := 0 to |rows|
      invariant items == Items(Known, rows)[..i]
      invariant Counts(items, counts)
    {
      var category := PrimaryCategoryFromGuids(rows[i].guids);
      var item := Pending(rows[i].kbIds, category, SeverityOf(rows[i].msrc));
      var n := (if category in counts then counts[category] else 0) + 1;
      CountsMore(items, item, counts, n);
      items, counts := items + [item], counts[category := n];
    }
  }

  method MapPending(rows: seq<PendingRow>)
    returns (total: nat, truncated: bool, list: seq<Pending>, byCategory: seq<Tally>)
    ensures total == |rows| && Sum(byCategory) == total && Strict(byCategory)
    ensures FrontOf(PendingLess, Items(Known, rows), MAX_PENDING, list, truncated)
    ensures byCategory == RollupFrom(Items(Known, rows), 0)
  {
    var items, counts := CountPending(rows);
    PendingOrder();
    FrontOfSorted(PendingLess, items, MAX_PENDING);
    total, truncated := |items|, |items| > MAX_PENDING;
    list := First(StableSort(PendingLess, items), MAX_PENDING);
    byCategory := RollUp(counts, items);
    RollupAccountsForAll(items);
    RollupIsStrict(items, 0);
  }
}
