/** What a plan holds, told by the input's own fields (internal/planner). */
module PlanContents {
  import opened DiskUsage
  import opened PlannerModel
  import opened Destinations
  import opened Reclaims
  import opened ReclaimPhase
  import opened FillPhase
  import opened Planner
  import opened PlanRounds
  import opened Build
  import opened Sorting

  // ----- room, in numbers

  /** The bytes are free, and with them the disk holds no more than it has and no more than ceiling percent
      of what is used and free. */
  predicate RoomFor(u: Usage, size: int, ceiling: real) {
    && u.total > 0 && 0 <= size <= u.free && u.used + size <= u.total
    && 0.0 <= ceiling && (u.used + size) as real * 100.0 <= ceiling * (u.used + u.free) as real
  }

  lemma {:induction false} ShareIs(part: real, whole: real, ceiling: real)
    requires whole > 0.0
    ensures part / whole * 100.0 <= ceiling <==> part * 100.0 <= ceiling * whole
  {
    var share := part / whole;
    assert share * whole == part;
    if share * 100.0 <= ceiling {
      assert (ceiling - share * 100.0) * whole >= 0.0;
    } else {
      assert (share * 100.0 - ceiling) * whole > 0.0;
    }
  }

  /** The planner's test for a destination is that there is room. */
  lemma {:induction false} FitsIsRoom(u: Usage, size: int, ceiling: real)
    ensures Fits(u, size, ceiling) <==> RoomFor(u, size, ceiling)
  {
    if u.total != 0 && 0 <= size <= u.free && u.used + u.free > 0 {
      ShareIs((u.used + size) as real, (u.used + u.free) as real, ceiling);
      assert 0.0 <= PercentUsed(u.used + size, u.free - size);
    }
  }

  /** The percentage, without a division. */
  lemma {:induction false} PercentIs(u: Usage)
    ensures u.UsedPercent() * (u.used + u.free) as real == u.used as real * 100.0
    ensures u.used + u.free == 0 ==> u.UsedPercent() == 0.0
  {
    if u.used + u.free > 0 {
      var share := u.used as real / (u.used + u.free) as real;
      assert share * (u.used + u.free) as real == u.used as real;
    }
  }

  // ----- which items may move, and which way

  /** The path belongs to a tier of that role, and its disk could be read. */
  ghost predicate OnUsable(input: Input, role: Role, p: Path) {
    p in input.usage && exists t :: t in input.layout.tiers && t.role == role && p in t.paths
  }

  /** On hot storage, scored cold, large enough and not moved lately. */
  ghost predicate MayGoCold(input: Input, c: ItemEval) {
    && OnUsable(input, Hot, c.item.root) && c.decision == ColdEligible
    && c.item.size >= input.minMoveBytes && c.item.key !in input.cooling
  }

  /** On cold storage, not protected, and a favorite, upcoming, or still to be upgraded. */
  ghost predicate MustGoHot(input: Input, c: ItemEval) {
    && OnUsable(input, Cold, c.item.root) && c.decision != Protected
    && (c.item.favorite || c.item.upcoming || (c.item.monitored && c.item.cutoffNotMet))
  }

  /** A favorite is called one, what is upcoming otherwise that, and the rest awaits its upgrade. */
  predicate RightReason(it: Item, reason: Reason) {
    match reason
    case MarkedFavorite => it.favorite
    case NotReleasedYet => it.upcoming && !it.favorite
    case UpgradeExpected => it.monitored && it.cutoffNotMet && !it.upcoming && !it.favorite
  }

  lemma {:induction false} EligibleExactly(items: seq<ItemEval>, hotPaths: map<Path, Tier>, cooling: set<Key>, minMoveBytes: int, c: ItemEval)
    ensures c in ColdEligibleOf(items, hotPaths, cooling, minMoveBytes) <==>
              c in items && c.item.root in hotPaths && c.decision == ColdEligible && c.item.size >= minMoveBytes && c.item.key !in cooling
    decreases |items|
  {
    if items != [] {
      var n := |items| - 1;
      EligibleExactly(items[..n], hotPaths, cooling, minMoveBytes, c);
      assert items == items[..n] + [items[n]];
    }
  }

  lemma {:induction false} MisplacedExactly(items: seq<ItemEval>, coldPaths: map<Path, Tier>, r: Reclaim)
    ensures r in Misplaced(items, coldPaths) <==>
              && r.eval in items && r.eval.item.root in coldPaths && r.fromTier == coldPaths[r.eval.item.root]
              && r.eval.decision != Protected && RightReason(r.eval.item, r.reason)
    decreases |items|
  {
    if items != [] {
      var n := |items| - 1;
      MisplacedExactly(items[..n], coldPaths, r);
      assert items == items[..n] + [items[n]];
    }
  }

  /** The fills are the items that may go cold. */
  lemma {:induction false} FillsExactly(input: Input, site: Site, reclaims: seq<Reclaim>, fills: seq<ItemEval>, c: ItemEval)
    requires CandidatesOf(input, site, reclaims, fills)
    ensures c in fills <==> c in input.items && MayGoCold(input, c)
  {
    SamePermutationMembers(fills, ColdEligibleOf(input.items, site.hotPaths, input.cooling, input.minMoveBytes));
    EligibleExactly(input.items, site.hotPaths, input.cooling, input.minMoveBytes, c);
    assert c.item.root in site.hotPaths <==> OnUsable(input, Hot, c.item.root);
  }

  /** The reclaims are the items that must go hot, each with its reason. */
  lemma {:induction false} ReclaimsMustGo(input: Input, site: Site, reclaims: seq<Reclaim>, fills: seq<ItemEval>, r: Reclaim)
    requires CandidatesOf(input, site, reclaims, fills) && r in reclaims
    ensures r.eval in input.items && MustGoHot(input, r.eval) && RightReason(r.eval.item, r.reason)
  {
    var coldPaths :| IsPathsOf(coldPaths, input.layout.tiers, Cold, input.usage) && reclaims == Misplaced(input.items, coldPaths);
    MisplacedExactly(input.items, coldPaths, r);
    assert OnUsable(input, Cold, r.eval.item.root);
  }

  function WhyHot(it: Item): (reason: Reason)
    requires it.favorite || it.upcoming || (it.monitored && it.cutoffNotMet)
    ensures RightReason(it, reason)
  {
    if it.favorite then MarkedFavorite else if it.upcoming then NotReleasedYet else UpgradeExpected
  }

  lemma {:induction false} MustGoIsReclaimed(input: Input, site: Site, reclaims: seq<Reclaim>, fills: seq<ItemEval>, c: ItemEval) returns (r: Reclaim)
    requires CandidatesOf(input, site, reclaims, fills) && c in input.items && MustGoHot(input, c)
    ensures r in reclaims && r.eval == c
  {
    var coldPaths :| IsPathsOf(coldPaths, input.layout.tiers, Cold, input.usage) && reclaims == Misplaced(input.items, coldPaths);
    var root := c.item.root;
    assert root in coldPaths;
    r := Reclaim(c, WhyHot(c.item), coldPaths[root]);
    MisplacedExactly(input.items, coldPaths, r);
  }

  // ----- what the entries move

  ghost predicate GoesTo(input: Input, role: Role, e: MoveEntry) {
    OnUsable(input, role, e.toPath)
  }

  lemma {:induction false} OneRole(input: Input, p: Path)
    requires ValidTiers(input.layout.tiers) && OnUsable(input, Hot, p)
    ensures !OnUsable(input, Cold, p)
  {
    if OnUsable(input, Cold, p) {
      var t :| t in input.layout.tiers && t.role == Hot && p in t.paths;
      var u :| u in input.layout.tiers && u.role == Cold && p in u.paths;
      OneTier(input.layout.tiers, Slot(t, p), Slot(u, p));
    }
  }

  lemma {:induction false} LandsOnUsable(input: Input, plan: Plan, k: nat)
    requires Sound(input.layout.volumeOf, input.usage, plan.entries) && k < |plan.entries|
    ensures plan.entries[k].toPath in input.usage
  {
    assert Placed(input.layout.volumeOf, input.usage, plan.entries, k);
  }

  /** The entry moves c off its root: to cold storage what may go there, to hot storage what must. */
  ghost predicate MovesRightly(input: Input, e: MoveEntry, c: ItemEval) {
    && c in input.items && e.item == c.item && e.fromPath == c.item.root
    && (GoesTo(input, Cold, e) || GoesTo(input, Hot, e))
    && (GoesTo(input, Cold, e) ==> MayGoCold(input, c))
    && (GoesTo(input, Hot, e) ==> MustGoHot(input, c))
  }

  /** The candidates a plan was built from. */
  lemma {:induction false} BuiltFrom(input: Input, plan: Plan) returns (site: Site, reclaims: seq<Reclaim>, fills: seq<ItemEval>)
    requires Built(input, plan)
    ensures CandidatesOf(input, site, reclaims, fills) && GoodPlan(input, site, reclaims, fills, plan) && InRounds(input, site, reclaims, fills, plan)
  {
    site, reclaims, fills :| CandidatesOf(input, site, reclaims, fills) && GoodPlan(input, site, reclaims, fills, plan) && InRounds(input, site, reclaims, fills, plan);
  }

  /** An entry to a cold path moves an item that may go cold, and one to a hot path an item that must go hot. */
  lemma {:induction false} EntryIsAllowed(input: Input, plan: Plan, k: nat) returns (c: ItemEval)
    requires ValidTiers(input.layout.tiers) && Built(input, plan) && k < |plan.entries|
    ensures MovesRightly(input, plan.entries[k], c)
  {
    var site, reclaims, fills := BuiltFrom(input, plan);
    var e := plan.entries[k];
    LandsOnUsable(input, plan, k);
    assert DirectedEntry(site, reclaims, fills, e);
    c := DirectedIsAllowed(input, site, reclaims, fills, e);
  }

  lemma {:induction false} DirectedIsAllowed(input: Input, site: Site, reclaims: seq<Reclaim>, fills: seq<ItemEval>, e: MoveEntry) returns (c: ItemEval)
    requires ValidTiers(input.layout.tiers) && CandidatesOf(input, site, reclaims, fills) && DirectedEntry(site, reclaims, fills, e) && e.toPath in input.usage
    ensures MovesRightly(input, e, c)
  {
    if HotEntry(site.layout, reclaims, e) {
      c := HotIsAllowed(input, site, reclaims, fills, e);
    } else {
      c := ColdIsAllowed(input, site, reclaims, fills, e);
    }
  }

  lemma {:induction false} HotIsAllowed(input: Input, site: Site, reclaims: seq<Reclaim>, fills: seq<ItemEval>, e: MoveEntry) returns (c: ItemEval)
    requires ValidTiers(input.layout.tiers) && CandidatesOf(input, site, reclaims, fills) && HotEntry(site.layout, reclaims, e) && e.toPath in input.usage
    ensures MovesRightly(input, e, c) && GoesTo(input, Hot, e)
  {
    var r :| r in reclaims && MovesToHot(e, r, site.layout);
    c := r.eval;
    var s := HotGoesHot(e, r, site.layout);
    ReclaimsMustGo(input, site, reclaims, fills, r);
    OneRole(input, e.toPath);
  }

  lemma {:induction false} ColdIsAllowed(input: Input, site: Site, reclaims: seq<Reclaim>, fills: seq<ItemEval>, e: MoveEntry) returns (c: ItemEval)
    requires ValidTiers(input.layout.tiers) && CandidatesOf(input, site, reclaims, fills) && ColdEntry(site, fills, e) && e.toPath in input.usage
    ensures MovesRightly(input, e, c) && GoesTo(input, Cold, e)
  {
    c :| c in fills && c.item.root in site.hotPaths && MovesToCold(e, c, site);
    var s := ColdGoesCold(e, c, site);
    FillsExactly(input, site, reclaims, fills, c);
    assert GoesTo(input, Cold, e);
    if GoesTo(input, Hot, e) {
      OneRole(input, e.toPath);
    }
  }

  // ----- nothing is forgotten

  ghost predicate InEntry(input: Input, plan: Plan, role: Role, it: Item) {
    exists k :: 0 <= k < |plan.entries| && plan.entries[k].item == it && GoesTo(input, role, plan.entries[k])
  }

  ghost predicate LeftCold(plan: Plan, it: Item) {
    exists c :: c in plan.leftFills && c.item == it
  }

  ghost predicate LeftHot(plan: Plan, it: Item) {
    exists r :: r in plan.leftReclaims && r.eval.item == it
  }

  ghost predicate MovedBy(entries: seq<MoveEntry>, it: Item) {
    exists k :: 0 <= k < |entries| && entries[k].item == it
  }

  lemma {:induction false} InMapped<T, U>(f: T -> U, s: seq<T>, y: U)
    ensures y in Mapped(f, s) <==> exists x :: x in s && f(x) == y
  {
    MappedAt(f, s);
    if y in Mapped(f, s) {
      var k :| 0 <= k < |s| && Mapped(f, s)[k] == y;
      assert s[k] in s && f(s[k]) == y;
    }
    if x :| x in s && f(x) == y {
      var k :| 0 <= k < |s| && s[k] == x;
      assert Mapped(f, s)[k] == y;
    }
  }

  /** An item is one of the plan's exactly when it is in an entry, or left over one way or the other. */
  lemma {:induction false} InEverything(entries: seq<MoveEntry>, reclaims: seq<Reclaim>, fills: seq<ItemEval>, it: Item)
    ensures it in Everything(entries, reclaims, fills) <==>
              MovedBy(entries, it) || (exists r :: r in reclaims && r.eval.item == it) || (exists c :: c in fills && c.item == it)
  {
    InMapped(EntryItem, entries, it);
    InMapped(ReclaimItem, reclaims, it);
    InMapped(FillItem, fills, it);
    ItemOfEntry(entries, it);
    ItemOfReclaim(reclaims, it);
    ItemOfFill(fills, it);
  }

  lemma {:induction false} ItemOfEntry(entries: seq<MoveEntry>, it: Item)
    ensures (exists e :: e in entries && EntryItem(e) == it) <==> MovedBy(entries, it)
  {
    if MovedBy(entries, it) {
      var k :| 0 <= k < |entries| && entries[k].item == it;
      assert entries[k] in entries && EntryItem(entries[k]) == it;
    }
  }

  lemma {:induction false} ItemOfReclaim(reclaims: seq<Reclaim>, it: Item)
    ensures (exists r :: r in reclaims && ReclaimItem(r) == it) <==> (exists r :: r in reclaims && r.eval.item == it)
  {
  }

  lemma {:induction false} ItemOfFill(fills: seq<ItemEval>, it: Item)
    ensures (exists c :: c in fills && FillItem(c) == it) <==> (exists c :: c in fills && c.item == it)
  {
  }

  lemma {:induction false} EntryHolding(input: Input, plan: Plan, it: Item) returns (k: nat, c: ItemEval)
    requires ValidTiers(input.layout.tiers) && Built(input, plan) && MovedBy(plan.entries, it)
    ensures k < |plan.entries| && plan.entries[k].item == it && MovesRightly(input, plan.entries[k], c)
  {
    k :| k < |plan.entries| && plan.entries[k].item == it;
    c := EntryIsAllowed(input, plan, k);
  }

  lemma {:induction false} LeftHotIsOnCold(input: Input, site: Site, reclaims: seq<Reclaim>, fills: seq<ItemEval>, plan: Plan, it: Item)
    requires CandidatesOf(input, site, reclaims, fills) && Among(plan.leftReclaims, reclaims) && LeftHot(plan, it)
    ensures OnUsable(input, Cold, it.root)
  {
    var r :| r in plan.leftReclaims && r.eval.item == it;
    ReclaimsMustGo(input, site, reclaims, fills, r);
  }

  lemma {:induction false} LeftColdIsOnHot(input: Input, site: Site, reclaims: seq<Reclaim>, fills: seq<ItemEval>, plan: Plan, it: Item)
    requires CandidatesOf(input, site, reclaims, fills) && Among(plan.leftFills, fills) && LeftCold(plan, it)
    ensures OnUsable(input, Hot, it.root)
  {
    var c :| c in plan.leftFills && c.item == it;
    FillsExactly(input, site, reclaims, fills, c);
  }

  /** The candidate's item is in an entry or left over, the way its root is left. */
  lemma {:induction false} FoundAgain(input: Input, site: Site, reclaims: seq<Reclaim>, fills: seq<ItemEval>, plan: Plan, it: Item)
    requires ValidTiers(input.layout.tiers) && Built(input, plan) && CandidatesOf(input, site, reclaims, fills)
    requires GoodPlan(input, site, reclaims, fills, plan) && it in Everything([], reclaims, fills)
    ensures OnUsable(input, Hot, it.root) ==> InEntry(input, plan, Cold, it) || LeftCold(plan, it)
    ensures OnUsable(input, Cold, it.root) ==> InEntry(input, plan, Hot, it) || LeftHot(plan, it)
  {
    InEverything(plan.entries, plan.leftReclaims, plan.leftFills, it);
    if OnUsable(input, Hot, it.root) {
      OneRole(input, it.root);
    }
    if LeftHot(plan, it) {
      LeftHotIsOnCold(input, site, reclaims, fills, plan, it);
    } else if LeftCold(plan, it) {
      LeftColdIsOnHot(input, site, reclaims, fills, plan, it);
    } else {
      var k, c := EntryHolding(input, plan, it);
    }
  }

  /** Every item that may go cold is in an entry to a cold path or left over, and every item that must go hot is
      in an entry to a hot path or left over. */
  lemma {:induction false} NothingForgotten(input: Input, plan: Plan, c: ItemEval)
    requires ValidTiers(input.layout.tiers) && Built(input, plan) && c in input.items
    ensures MayGoCold(input, c) ==> InEntry(input, plan, Cold, c.item) || LeftCold(plan, c.item)
    ensures MustGoHot(input, c) ==> InEntry(input, plan, Hot, c.item) || LeftHot(plan, c.item)
  {
    var site, reclaims, fills := BuiltFrom(input, plan);
    FillsExactly(input, site, reclaims, fills, c);
    InEverything([], reclaims, fills, c.item);
    if MustGoHot(input, c) {
      var r := MustGoIsReclaimed(input, site, reclaims, fills, c);
    }
    if MustGoHot(input, c) || MayGoCold(input, c) {
      FoundAgain(input, site, reclaims, fills, plan, c.item);
    }
  }

  // ----- where the entries go

  /** The hard ceiling in numbers: a hot tier that sets none has 97 percent. */
  function CeilingOf(t: Tier): real {
    if t.role == Hot && t.max == 0.0 then 97.0 else t.max
  }

  /** The path is one of the tier's, the tier takes such media, and with room held on held there is room. */
  ghost predicate RoomOn(t: Tier, p: Path, held: map<Path, Usage>, it: Item, ceiling: real) {
    p in t.paths && it.mediaType in t.media && p in held && RoomFor(held[p], it.size, ceiling)
  }

  /** What the entries of lower phases leave, with room held for the earlier entries of its own. */
  ghost function RoomAt(input: Input, plan: Plan, start: nat, k: nat): map<Path, Usage>
    requires start <= k <= |plan.entries|
  {
    Reserved(input.layout.volumeOf, After(input.layout.volumeOf, input.usage, plan.entries[..start]), plan.entries[start..k])
  }

  lemma {:induction false} DestinationOf(input: Input, site: Site, reclaims: seq<Reclaim>, fills: seq<ItemEval>, e: MoveEntry) returns (t: Tier)
    requires site.layout == input.layout && DirectedEntry(site, reclaims, fills, e)
    ensures t in input.layout.tiers && e.toPath in t.paths && e.item.mediaType in t.media && e.maxUsedPercent == CeilingOf(t)
  {
    var s: Slot;
    if HotEntry(site.layout, reclaims, e) {
      var r :| r in reclaims && MovesToHot(e, r, site.layout);
      s :| s in Slots(site.layout.tiers) && s.tier.role == Hot && s.tier.Accepts(r.Media()) && e == ReclaimEntry(r, s, e.phase);
    } else {
      var c :| c in fills && c.item.root in site.hotPaths && MovesToCold(e, c, site);
      s :| s in Slots(site.layout.tiers) && s.tier.role == Cold && s.tier.Accepts(c.item.mediaType) && e == FillEntry(site, c, s, e.phase);
    }
    SlotsFromTiers(site.layout.tiers, s);
    t := s.tier;
  }

  /** At its turn every entry has room where it goes, under the ceiling of a tier that takes it - counting nothing
      that its own phase frees. */
  lemma {:induction false} EntryHasRoom(input: Input, plan: Plan, k: nat) returns (t: Tier, start: nat)
    requires Built(input, plan) && k < |plan.entries|
    ensures start <= k && (forall i :: 0 <= i < start ==> plan.entries[i].phase < plan.entries[k].phase)
    ensures forall i :: start <= i < k ==> plan.entries[i].phase == plan.entries[k].phase
    ensures t in input.layout.tiers && plan.entries[k].maxUsedPercent == CeilingOf(t)
    ensures RoomOn(t, plan.entries[k].toPath, RoomAt(input, plan, start, k), plan.entries[k].item, CeilingOf(t))
  {
    var site, reclaims, fills := BuiltFrom(input, plan);
    assert DirectedEntry(site, reclaims, fills, plan.entries[k]);
    t := DestinationOf(input, site, reclaims, fills, plan.entries[k]);
    start := HasRoomAtTurn(input, plan, k);
  }

  lemma {:induction false} HasRoomAtTurn(input: Input, plan: Plan, k: nat) returns (start: nat)
    requires Sound(input.layout.volumeOf, input.usage, plan.entries) && k < |plan.entries|
    ensures start <= k && (forall i :: 0 <= i < start ==> plan.entries[i].phase < plan.entries[k].phase)
    ensures forall i :: start <= i < k ==> plan.entries[i].phase == plan.entries[k].phase
    ensures var e, held := plan.entries[k], RoomAt(input, plan, start, k);
            e.toPath in held && RoomFor(held[e.toPath], e.item.size, e.maxUsedPercent)
  {
    assert Placed(input.layout.volumeOf, input.usage, plan.entries, k);
    start :| PlacedFrom(input.layout.volumeOf, input.usage, plan.entries, start, k);
    var e, held := plan.entries[k], RoomAt(input, plan, start, k);
    FitsIsRoom(held[e.toPath], e.item.size, e.maxUsedPercent);
  }

  lemma {:induction false} InPathSlots(tier: Tier, paths: seq<Path>, p: Path)
    requires p in paths
    ensures Slot(tier, p) in PathSlots(tier, paths)
  {
    if p != paths[0] {
      InPathSlots(tier, paths[1..], p);
    }
  }

  lemma {:induction false} InSlots(tiers: seq<Tier>, t: Tier, p: Path)
    requires t in tiers && p in t.paths
    ensures Slot(t, p) in Slots(tiers)
  {
    if t == tiers[0] {
      InPathSlots(t, t.paths, p);
    } else {
      InSlots(tiers[1..], t, p);
    }
  }

  lemma {:induction false} NoPickNoRoom(tiers: seq<Tier>, usage: map<Path, Usage>, it: Item, t: Tier, p: Path)
    requires ValidTiers(tiers) && Pick(tiers, usage, it.mediaType, it.size).None? && t in tiers && t.role == Cold
    ensures !RoomOn(t, p, usage, it, t.max)
  {
    if RoomOn(t, p, usage, it, t.max) {
      PickFindsRoom(tiers, usage, it.mediaType, it.size);
      InSlots(tiers, t, p);
      FitsIsRoom(usage[p], it.size, t.max);
      assert Viable(Slot(t, p), usage, Cold, it.mediaType, it.size, MaxCeiling);
    }
  }

  lemma {:induction false} NoOptionNoRoom(tiers: seq<Tier>, usage: map<Path, Usage>, r: Reclaim, t: Tier, p: Path)
    requires OptionsOf(tiers, usage, r) == [] && t in tiers && t.role == Hot
    ensures !RoomOn(t, p, usage, r.eval.item, CeilingOf(t))
  {
    if RoomOn(t, p, usage, r.eval.item, CeilingOf(t)) {
      InSlots(tiers, t, p);
      FitsIsRoom(usage[p], r.Size(), CeilingOf(t));
      HotOptionsExact(Slots(tiers), usage, r.Media(), r.Size(), Slot(t, p));
      assert HotViable(Slot(t, p), usage, r.Media(), r.Size());
    }
  }

  lemma {:induction false} LeftFillsHaveNoRoom(input: Input, site: Site, plan: Plan, t: Tier, p: Path)
    requires ValidTiers(input.layout.tiers) && t in input.layout.tiers && t.role == Cold
    requires site.layout == input.layout && NoFillGoes(site, plan.leftFills, plan.finalUsage)
    ensures forall c :: c in plan.leftFills ==> !RoomOn(t, p, plan.finalUsage, c.item, CeilingOf(t))
  {
    forall k | 0 <= k < |plan.leftFills|
      ensures !RoomOn(t, p, plan.finalUsage, plan.leftFills[k].item, CeilingOf(t))
    {
      NoPickNoRoom(input.layout.tiers, plan.finalUsage, plan.leftFills[k].item, t, p);
    }
  }

  lemma {:induction false} LeftReclaimsHaveNoRoom(input: Input, plan: Plan, t: Tier, p: Path)
    requires t in input.layout.tiers && t.role == Hot && NoReclaimGoes(input.layout, plan.leftReclaims, plan.finalUsage)
    ensures forall r :: r in plan.leftReclaims ==> !RoomOn(t, p, plan.finalUsage, r.eval.item, CeilingOf(t))
  {
    forall k | 0 <= k < |plan.leftReclaims|
      ensures !RoomOn(t, p, plan.finalUsage, plan.leftReclaims[k].eval.item, CeilingOf(t))
    {
      NoOptionNoRoom(input.layout.tiers, plan.finalUsage, plan.leftReclaims[k], t, p);
    }
  }

  /** What is left over had nowhere to go: with every entry landed no cold path has room for a fill, and no hot
      path for a reclaim. */
  lemma {:induction false} LeftHasNoRoom(input: Input, plan: Plan, t: Tier, p: Path)
    requires ValidTiers(input.layout.tiers) && Built(input, plan) && t in input.layout.tiers
    ensures plan.finalUsage == After(input.layout.volumeOf, input.usage, plan.entries)
    ensures t.role == Cold ==> forall c :: c in plan.leftFills ==> !RoomOn(t, p, plan.finalUsage, c.item, CeilingOf(t))
    ensures t.role == Hot ==> forall r :: r in plan.leftReclaims ==> !RoomOn(t, p, plan.finalUsage, r.eval.item, CeilingOf(t))
  {
    var site, reclaims, fills := BuiltFrom(input, plan);
    if t.role == Cold {
      LeftFillsHaveNoRoom(input, site, plan, t, p);
    } else {
      LeftReclaimsHaveNoRoom(input, plan, t, p);
    }
  }
}
