/** Building a whole plan: candidates, rounds and phases (internal/planner). */
module Planner {
  import opened DiskUsage
  import opened PlannerModel
  import opened Destinations
  import opened Reclaims
  import opened ReclaimPhase
  import opened FillPhase
  import opened Sorting

  /** What a plan is built from. cooling holds the items moved within the cooldown window. */
  datatype Input = Input(layout: Layout, usage: map<Path, Usage>, items: seq<ItemEval>, cooling: set<Key>, minMoveBytes: int)

  datatype Plan = Plan(entries: seq<MoveEntry>, finalUsage: map<Path, Usage>, leftReclaims: seq<Reclaim>, leftFills: seq<ItemEval>)

  // ----- candidates

  /** The usable paths of every tier with the given role. */
  ghost predicate IsPathsOf(paths: map<Path, Tier>, tiers: seq<Tier>, role: Role, usage: map<Path, Usage>) {
    && (forall p :: p in paths ==> p in usage && paths[p] in tiers && paths[p].role == role && p in paths[p].paths)
    && (forall p, t :: p in usage && t in tiers && t.role == role && p in t.paths ==> p in paths)
  }

  lemma {:induction false} OneMoreTier(before: map<Path, Tier>, paths: map<Path, Tier>, tiers: seq<Tier>, tier: Tier, role: Role, usage: map<Path, Usage>)
    requires IsPathsOf(before, tiers, role, usage) && tier.role == role && WithTier(before, paths, tier, usage)
    ensures IsPathsOf(paths, tiers + [tier], role, usage)
  {
  }

  /** The paths with those of one more tier. */
  ghost predicate WithTier(before: map<Path, Tier>, paths: map<Path, Tier>, tier: Tier, usage: map<Path, Usage>) {
    && (forall p :: p in paths <==> p in before || (p in usage && p in tier.paths))
    && forall p :: p in paths ==> (p in before && paths[p] == before[p]) || (p in usage && p in tier.paths && paths[p] == tier)
  }

  method TierPaths(tier: Tier, usage: map<Path, Usage>, before: map<Path, Tier>) returns (paths: map<Path, Tier>)
    ensures WithTier(before, paths, tier, usage)
  {
    paths := before;
    for j := 0 to |tier.paths|
      invariant forall p :: p in paths <==> p in before || (p in usage && p in tier.paths[..j])
      invariant forall p :: p in paths ==> (p in before && paths[p] == before[p]) || (p in usage && p in tier.paths[..j] && paths[p] == tier)
    {
      assert tier.paths[..j + 1] == tier.paths[..j] + [tier.paths[j]];
      if tier.paths[j] in usage {
        paths := paths[tier.paths[j] := tier];
      }
    }
    assert tier.paths[..|tier.paths|] == tier.paths;
  }

  method PathsOf(tiers: seq<Tier>, role: Role, usage: map<Path, Usage>) returns (paths: map<Path, Tier>)
    ensures IsPathsOf(paths, tiers, role, usage)
  {
    paths := map[];
    for i := 0 to |tiers|
      invariant IsPathsOf(paths, tiers[..i], role, usage)
    {
      var tier := tiers[i];
      assert tiers[..i + 1] == tiers[..i] + [tier];
      if tier.role != role {
        continue;
      }
      ghost var before := paths;
      paths := TierPaths(tier, usage, paths);
      OneMoreTier(before, paths, tiers[..i], tier, role, usage);
    }
    assert tiers[..|tiers|] == tiers;
  }

  /** Why an item does not belong on cold storage, the most pressing reason first. */
  function ReasonFor(it: Item): Option<Reason> {
    if it.favorite then Some(MarkedFavorite)
    else if it.upcoming then Some(NotReleasedYet)
    else if it.monitored && it.cutoffNotMet then Some(UpgradeExpected)
    else None
  }

  predicate IsMisplaced(c: ItemEval, coldPaths: map<Path, Tier>) {
    c.item.root in coldPaths && c.decision != Protected && ReasonFor(c.item).Some?
  }

  function Misplaced(items: seq<ItemEval>, coldPaths: map<Path, Tier>): seq<Reclaim> {
    if items == [] then []
    else
      var c := items[|items| - 1];
      Misplaced(items[..|items| - 1], coldPaths)
      + if IsMisplaced(c, coldPaths) then [Reclaim(c, ReasonFor(c.item).value, coldPaths[c.item.root])] else []
  }

  method MisplacedOnCold(items: seq<ItemEval>, coldPaths: map<Path, Tier>) returns (out: seq<Reclaim>)
    ensures out == Misplaced(items, coldPaths)
  {
    out := [];
    for i := 0 to |items|
      invariant out == Misplaced(items[..i], coldPaths)
    {
      var c := items[i];
      assert items[..i + 1][..i] == items[..i];
      if c.item.root !in coldPaths || c.decision == Protected {
        continue;
      }
      if c.item.favorite {
        out := out + [Reclaim(c, MarkedFavorite, coldPaths[c.item.root])];
      } else if c.item.upcoming {
        out := out + [Reclaim(c, NotReleasedYet, coldPaths[c.item.root])];
      } else if c.item.monitored && c.item.cutoffNotMet {
        out := out + [Reclaim(c, UpgradeExpected, coldPaths[c.item.root])];
      }
    }
    assert items[..|items|] == items;
  }

  predicate IsColdCandidate(c: ItemEval, hotPaths: map<Path, Tier>, cooling: set<Key>, minMoveBytes: int) {
    c.item.root in hotPaths && c.decision == ColdEligible && c.item.size >= minMoveBytes && c.item.key !in cooling
  }

  function ColdEligibleOf(items: seq<ItemEval>, hotPaths: map<Path, Tier>, cooling: set<Key>, minMoveBytes: int): seq<ItemEval> {
    if items == [] then []
    else
      var c := items[|items| - 1];
      ColdEligibleOf(items[..|items| - 1], hotPaths, cooling, minMoveBytes)
      + if IsColdCandidate(c, hotPaths, cooling, minMoveBytes) then [c] else []
  }

  predicate Colder(a: ItemEval, b: ItemEval) {
    a.score > b.score || (a.score == b.score && a.item.size > b.item.size)
  }

  method ColdCandidates(items: seq<ItemEval>, hotPaths: map<Path, Tier>, cooling: set<Key>, minMoveBytes: int) returns (out: seq<ItemEval>)
    ensures multiset(out) == multiset(ColdEligibleOf(items, hotPaths, cooling, minMoveBytes))
    ensures SortedBy(out, Colder)
  {
    var found: seq<ItemEval> := [];
    for i := 0 to |items|
      invariant found == ColdEligibleOf(items[..i], hotPaths, cooling, minMoveBytes)
    {
      var c := items[i];
      assert items[..i + 1][..i] == items[..i];
      if c.item.root !in hotPaths || c.decision != ColdEligible || c.item.size < minMoveBytes || c.item.key in cooling {
        continue;
      }
      found := found + [c];
    }
    assert items[..|items|] == items;
    out := SortSlice(found, Colder);
  }

  // ----- items, across candidates, entries and leftovers

  function Mapped<T, U>(f: T -> U, s: seq<T>): seq<U> {
    if s == [] then [] else Mapped(f, s[..|s| - 1]) + [f(s[|s| - 1])]
  }

  function ReclaimItem(r: Reclaim): Item { r.eval.item }
  function FillItem(c: ItemEval): Item { c.item }
  function EntryItem(e: MoveEntry): Item { e.item }

  lemma {:induction false} MappedAt<T, U>(f: T -> U, s: seq<T>)
    ensures |Mapped(f, s)| == |s| && forall k :: 0 <= k < |s| ==> Mapped(f, s)[k] == f(s[k])
    decreases |s|
  {
    if s != [] {
      MappedAt(f, s[..|s| - 1]);
    }
  }

  lemma {:induction false} MappedConcat<T, U>(f: T -> U, a: seq<T>, b: seq<T>)
    ensures Mapped(f, a + b) == Mapped(f, a) + Mapped(f, b)
  {
    MappedAt(f, a);
    MappedAt(f, b);
    MappedAt(f, a + b);
  }

  lemma {:induction false} MappedDropping<T, U>(f: T -> U, s: seq<T>, gone: set<nat>)
    ensures Mapped(f, Dropping(s, gone)) == Dropping(Mapped(f, s), gone)
    decreases |s|
  {
    if s != [] {
      var n := |s| - 1;
      MappedAt(f, s);
      MappedAt(f, s[..n]);
      MappedDropping(f, s[..n], gone);
      assert Mapped(f, s)[..n] == Mapped(f, s[..n]);
      MappedConcat(f, Dropping(s[..n], gone), if n in gone then [] else [s[n]]);
      assert Mapped(f, [s[n]]) == [f(s[n])] by { MappedAt(f, [s[n]]); }
    }
  }

  /** Taking some of a pending list as entries keeps every item, in an entry or still pending. */
  lemma {:induction false} ItemsKept<T>(f: T -> Item, pending: seq<T>, placed: seq<nat>, entries: seq<MoveEntry>)
    requires Selects(pending, placed) && |entries| == |placed|
    requires forall k :: 0 <= k < |entries| ==> entries[k].item == f(pending[placed[k]])
    ensures multiset(Mapped(EntryItem, entries)) + multiset(Mapped(f, Dropping(pending, AsSet(placed)))) == multiset(Mapped(f, pending))
    ensures |entries| + |Dropping(pending, AsSet(placed))| == |pending|
  {
    MappedAt(f, pending);
    MappedAt(EntryItem, entries);
    PickedOrLeft(pending, placed);
    PickedOrLeft(Mapped(f, pending), placed);
    assert Picked(Mapped(f, pending), placed) == Mapped(EntryItem, entries);
    MappedDropping(f, pending, AsSet(placed));
  }
}
