/** From a planner input to a whole run: conservation of the items' bytes, reservations, and a run in
    which nothing goes wrong outside. */
module PlanRuns {
  import opened DiskUsage
  import opened PlannerModel
  import opened Reclaims
  import opened ReclaimPhase
  import opened FillPhase
  import opened Planner
  import opened Build
  import opened Ledger
  import opened Mover
  import opened MoverProofs
  import opened MoverRuns
  import opened Execution

  // ----- the bytes a plan takes off a volume belong to items that are there

  function WeightOf(volumeOf: map<Path, nat>, it: Item, path: Path): nat {
    if SameVolume(volumeOf, it.root, path) && it.size > 0 then it.size else 0
  }

  /** How many bytes the items take on path's volume. */
  function WeightOn(volumeOf: map<Path, nat>, items: seq<Item>, path: Path): nat {
    if items == [] then 0 else WeightOn(volumeOf, items[..|items| - 1], path) + WeightOf(volumeOf, items[|items| - 1], path)
  }

  lemma {:induction false} WeightConcat(volumeOf: map<Path, nat>, a: seq<Item>, b: seq<Item>, path: Path)
    ensures WeightOn(volumeOf, a + b, path) == WeightOn(volumeOf, a, path) + WeightOn(volumeOf, b, path)
    decreases |b|
  {
    if b == [] {
      assert a + b == a;
    } else {
      assert (a + b)[..|a + b| - 1] == a + b[..|b| - 1];
      WeightConcat(volumeOf, a, b[..|b| - 1], path);
    }
  }

  lemma {:induction false} WeightWithout(volumeOf: map<Path, nat>, items: seq<Item>, j: nat, path: Path)
    requires j < |items|
    ensures WeightOn(volumeOf, items, path) == WeightOn(volumeOf, Without(items, j), path) + WeightOf(volumeOf, items[j], path)
  {
    assert items == items[..j] + [items[j]] + items[j + 1..];
    WeightConcat(volumeOf, items[..j] + [items[j]], items[j + 1..], path);
    WeightConcat(volumeOf, items[..j], [items[j]], path);
    WeightConcat(volumeOf, items[..j], items[j + 1..], path);
    assert [items[j]][..0] == [];
  }

  /** Fewer items never weigh more. */
  lemma {:induction false} WeightMonotone(volumeOf: map<Path, nat>, a: seq<Item>, b: seq<Item>, path: Path)
    requires multiset(a) <= multiset(b)
    ensures WeightOn(volumeOf, a, path) <= WeightOn(volumeOf, b, path)
    decreases |a|
  {
    if a != [] {
      var n := |a| - 1;
      assert a == a[..n] + [a[n]];
      assert multiset(a) == multiset(a[..n]) + multiset{a[n]};
      assert a[n] in multiset(b);
      var j :| 0 <= j < |b| && b[j] == a[n];
      TakenOut(b, j);
      CancelOne(multiset(a[..n]), multiset(Without(b, j)), a[n]);
      WeightMonotone(volumeOf, a[..n], Without(b, j), path);
      WeightWithout(volumeOf, b, j, path);
    }
  }

  lemma {:induction false} CancelOne<T>(x: multiset<T>, y: multiset<T>, e: T)
    requires x + multiset{e} <= y + multiset{e}
    ensures x <= y
  {
    forall k | k in x
      ensures x[k] <= y[k]
    {
      assert (x + multiset{e})[k] <= (y + multiset{e})[k];
    }
  }

  lemma {:induction false} TakenOut<T>(p: seq<T>, j: nat)
    requires j < |p|
    ensures multiset(p) == multiset(Without(p, j)) + multiset{p[j]}
  {
    assert p == p[..j] + [p[j]] + p[j + 1..];
  }

  lemma {:induction false} OutflowIsWeight(volumeOf: map<Path, nat>, entries: seq<MoveEntry>, path: Path)
    requires FromRoots(entries) && forall k :: 0 <= k < |entries| ==> 0 <= entries[k].item.size
    ensures OutOf(volumeOf, entries, Sizes(entries), path) == WeightOn(volumeOf, Mapped(EntryItem, entries), path)
    decreases |entries|
  {
    if entries != [] {
      var n := |entries| - 1;
      assert Sizes(entries)[..n] == Sizes(entries[..n]);
      OutflowIsWeight(volumeOf, entries[..n], path);
      assert Mapped(EntryItem, entries) == Mapped(EntryItem, entries[..n]) + [entries[n].item];
    }
  }

  lemma {:induction false} MappedPermuted<T>(f: T -> Item, a: seq<T>, b: seq<T>)
    requires multiset(a) == multiset(b)
    ensures multiset(Mapped(f, a)) == multiset(Mapped(f, b))
    decreases |a|
  {
    assert |multiset(a)| == |a| && |multiset(b)| == |b|;
    if a != [] {
      var n := |a| - 1;
      assert a == a[..n] + [a[n]];
      assert multiset(a) == multiset(a[..n]) + multiset{a[n]};
      assert a[n] in multiset(b);
      var j :| 0 <= j < |b| && b[j] == a[n];
      TakenOut(b, j);
      CancelOne(multiset(a[..n]), multiset(Without(b, j)), a[n]);
      CancelOne(multiset(Without(b, j)), multiset(a[..n]), a[n]);
      MappedPermuted(f, a[..n], Without(b, j));
      MappedWithout(f, b, j);
    }
  }

  lemma {:induction false} MappedWithout<T>(f: T -> Item, b: seq<T>, j: nat)
    requires j < |b|
    ensures multiset(Mapped(f, b)) == multiset(Mapped(f, Without(b, j))) + multiset{f(b[j])}
  {
    MappedAt(f, b);
    MappedAt(f, Without(b, j));
    assert Mapped(f, Without(b, j)) == Without(Mapped(f, b), j);
    TakenOut(Mapped(f, b), j);
  }

  lemma {:induction false} LastSplit<T>(s: seq<T>)
    requires s != []
    ensures s == s[..|s| - 1] + [s[|s| - 1]]
  {
  }

  lemma {:induction false} SumsStayBelow<T>(x: multiset<T>, y: multiset<T>, z: multiset<T>, dx: multiset<T>, dy: multiset<T>, dz: multiset<T>)
    requires x + y <= z && dx + dy <= dz
    ensures (x + dx) + (y + dy) <= z + dz
  {
    assert (x + dx) + (y + dy) == (x + y) + (dx + dy);
  }

  /** No item is both a reclaim and a fill, so candidates are a selection of the items. */
  lemma {:induction false} CandidatesAreItems(items: seq<ItemEval>, coldPaths: map<Path, Tier>, hotPaths: map<Path, Tier>, cooling: set<Key>, minMoveBytes: int)
    requires coldPaths.Keys !! hotPaths.Keys
    ensures multiset(Mapped(ReclaimItem, Misplaced(items, coldPaths))) + multiset(Mapped(FillItem, ColdEligibleOf(items, hotPaths, cooling, minMoveBytes)))
         <= multiset(Mapped(FillItem, items))
    decreases |items|
  {
    if items != [] {
      var n := |items| - 1;
      var c, front := items[n], items[..n];
      CandidatesAreItems(front, coldPaths, hotPaths, cooling, minMoveBytes);
      var isR, isF := IsMisplaced(c, coldPaths), IsColdCandidate(c, hotPaths, cooling, minMoveBytes);
      var rs, fs := Misplaced(front, coldPaths), ColdEligibleOf(front, hotPaths, cooling, minMoveBytes);
      OneMapped(ReclaimItem, rs, if isR then [Reclaim(c, ReasonFor(c.item).value, coldPaths[c.item.root])] else []);
      OneMapped(FillItem, fs, if isF then [c] else []);
      OneMapped(FillItem, front, [c]);
      LastSplit(items);
      SumsStayBelow(multiset(Mapped(ReclaimItem, rs)), multiset(Mapped(FillItem, fs)), multiset(Mapped(FillItem, front)),
                    Once(c.item, isR), Once(c.item, isF), Once(c.item, true));
    }
  }

  ghost function Once(it: Item, yes: bool): multiset<Item> {
    if yes then multiset{it} else multiset{}
  }

  lemma {:induction false} OneMapped<T>(f: T -> Item, s: seq<T>, more: seq<T>)
    requires |more| <= 1
    ensures multiset(Mapped(f, s + more)) == multiset(Mapped(f, s)) + (if more == [] then multiset{} else Once(f(more[0]), true))
  {
    if more == [] {
      assert s + more == s;
    } else {
      assert (s + more)[..|s|] == s;
    }
  }

  lemma {:induction false} RolesApart(tiers: seq<Tier>, usage: map<Path, Usage>, coldPaths: map<Path, Tier>, hotPaths: map<Path, Tier>)
    requires ValidTiers(tiers) && IsPathsOf(coldPaths, tiers, Cold, usage) && IsPathsOf(hotPaths, tiers, Hot, usage)
    ensures coldPaths.Keys !! hotPaths.Keys
  {
    assert forall p :: p in coldPaths ==> p in coldPaths[p].paths && p !in hotPaths;
  }

  /** A plan takes no more off a volume than the items on it weigh: each item moves at most once. */
  lemma {:induction false} OutflowBounded(input: Input, site: Site, reclaims: seq<Reclaim>, fills: seq<ItemEval>, plan: Plan, path: Path)
    requires ValidTiers(input.layout.tiers) && CandidatesOf(input, site, reclaims, fills) && GoodPlan(input, site, reclaims, fills, plan)
    ensures OutOf(input.layout.volumeOf, plan.entries, Sizes(plan.entries), path) <= WeightOn(input.layout.volumeOf, Mapped(FillItem, input.items), path)
  {
    var v := input.layout.volumeOf;
    forall k: nat | k < |plan.entries|
      ensures 0 <= plan.entries[k].item.size
    {
      SoundSizes(v, input.usage, plan.entries, k);
    }
    OutflowIsWeight(v, plan.entries, path);
    EntriesAreItems(input, site, reclaims, fills, plan);
    WeightMonotone(v, Mapped(EntryItem, plan.entries), Mapped(FillItem, input.items), path);
  }

  lemma {:induction false} EntriesAreItems(input: Input, site: Site, reclaims: seq<Reclaim>, fills: seq<ItemEval>, plan: Plan)
    requires ValidTiers(input.layout.tiers) && CandidatesOf(input, site, reclaims, fills) && GoodPlan(input, site, reclaims, fills, plan)
    ensures multiset(Mapped(EntryItem, plan.entries)) <= multiset(Mapped(FillItem, input.items))
  {
    var coldPaths :| IsPathsOf(coldPaths, input.layout.tiers, Cold, input.usage) && reclaims == Misplaced(input.items, coldPaths);
    RolesApart(input.layout.tiers, input.usage, coldPaths, site.hotPaths);
    CandidatesAreItems(input.items, coldPaths, site.hotPaths, input.cooling, input.minMoveBytes);
    MappedPermuted(FillItem, fills, ColdEligibleOf(input.items, site.hotPaths, input.cooling, input.minMoveBytes));
    assert multiset(Mapped(EntryItem, [])) == multiset{};
    assert multiset(Mapped(EntryItem, plan.entries)) <= Everything(plan.entries, plan.leftReclaims, plan.leftFills);
  }

  // ----- reservations

  /** A path's usage with n bytes counted as already used: what downloads in progress will still write. */
  function Reserve(u: Usage, n: int): Usage {
    if n > 0 then Usage(u.total, if n < u.free then u.free - n else 0, u.used + n) else u
  }

  /** The usage map a plan is built on. */
  function ApplyReservations(usage: map<Path, Usage>, reserved: map<Path, int>): map<Path, Usage> {
    map p | p in usage :: if p in reserved then Reserve(usage[p], reserved[p]) else usage[p]
  }
}
