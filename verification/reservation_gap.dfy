/** Where more is reserved on a disk than it has free, a plan can count on room that downloads then take. */
module ReservationGap {
  import opened DiskUsage
  import opened PlannerModel
  import opened Destinations
  import opened Reclaims
  import opened ReclaimPhase
  import opened FillPhase
  import opened Planner
  import opened Build
  import opened Ledger
  import opened Mover
  import opened MoverRuns
  import opened Execution
  import opened PlanRuns
  import opened ReservedRuns

  const HOT := Path("/hot")
  const COLD := Path("/cold")

  function HotTier(ceiling: real): Tier {
    Tier("hot", Hot, [HOT], [Movie], 0.0, ceiling)
  }

  const COLD_TIER := Tier("cold", Cold, [COLD], [Movie], 100.0, 100.0)

  /** An item to move off the hot path, and one to bring back. */
  function Leaving(size: nat): ItemEval {
    ItemEval(Item(Key("app", 1), Movie, HOT, size, false, false, false, false), ColdEligible, 0.0)
  }

  const COMING := ItemEval(Item(Key("app", 2), Movie, COLD, 1, true, false, false, false), Keep, 0.0)

  /** What the leaving item has to free for the other to be planned up to the highest level. */
  function LeavingSize(disk: Usage, n: nat, ceiling: real): nat {
    var level := HighestPlanned(disk, n, ceiling);
    if level <= disk.used + n then disk.used + n - level + 1 else 0
  }

  /** The hot disk as given, and a cold one with just room for the leaving item. */
  function Disks(disk: Usage, size: nat): map<Path, Usage> {
    map[HOT := disk, COLD := Usage(size + 1, size, 1)]
  }

  function GapInput(disk: Usage, n: nat, ceiling: real, size: nat): Input {
    Input(Layout([HotTier(ceiling), COLD_TIER], map[]), ApplyReservations(Disks(disk, size), map[HOT := n]), [Leaving(size), COMING], {}, 0)
  }

  /** Room is not kept, under a ceiling configuration allows. */
  predicate HasGap(disk: Usage, n: nat, ceiling: real) {
    0.0 < ceiling <= 100.0 && !RoomKept(disk, n, ceiling)
  }

  lemma {:induction false} GapSizes(disk: Usage, n: nat, ceiling: real)
    requires HasGap(disk, n, ceiling)
    ensures 1 <= LeavingSize(disk, n, ceiling) <= disk.used && n > disk.free && disk.total > 0
    ensures var level := HighestPlanned(disk, n, ceiling);
            n < level <= disk.total && level as real * 100.0 <= ceiling * (disk.used + n) as real && !Reachable(disk, level, ceiling)
  {
    var level := HighestPlanned(disk, n, ceiling);
    FloorUnder(ceiling * (disk.used + n) as real, level);
    LevelInUse(ceiling, disk.used + n, level);
  }

  lemma {:induction false} LevelInUse(ceiling: real, used: nat, level: int)
    requires ceiling <= 100.0 && level as real * 100.0 <= ceiling * used as real
    ensures level <= used
  {
    Whole(ceiling, used as real);
    assert level as real * 100.0 <= 100.0 * used as real;
  }

  lemma {:induction false} FloorUnder(x: real, level: int)
    requires level <= (x / 100.0).Floor
    ensures level as real * 100.0 <= x
  {
    assert level as real <= (x / 100.0).Floor as real <= x / 100.0;
  }

  lemma {:induction false} Whole(ceiling: real, x: real)
    requires ceiling <= 100.0 && 0.0 <= x
    ensures ceiling * x <= 100.0 * x
  {
    assert (100.0 - ceiling) * x >= 0.0;
  }

  /** The planned usage: nothing free on the hot path, and all of its reservation counted as used. */
  lemma {:induction false} GapUsage(disk: Usage, n: nat, ceiling: real, size: nat)
    requires n > disk.free
    ensures var usage := GapInput(disk, n, ceiling, size).usage;
            usage.Keys == {HOT, COLD} && usage[HOT] == Usage(disk.total, 0, disk.used + n) && usage[COLD] == Usage(size + 1, size, 1)
  {
    assert HOT != COLD;
  }

  lemma {:induction false} GapValid(disk: Usage, n: nat, ceiling: real, size: nat)
    ensures var input := GapInput(disk, n, ceiling, size); ValidTiers(input.layout.tiers) && Coherent(input.layout.volumeOf, input.usage)
  {
    assert HOT != COLD;
  }

  // ----- what Build can return on it

  lemma {:induction false} HotSlots(ceiling: real, s: Slot)
    ensures s in Slots([HotTier(ceiling), COLD_TIER]) <==> s == Slot(HotTier(ceiling), HOT) || s == Slot(COLD_TIER, COLD)
  {
    var tiers := [HotTier(ceiling), COLD_TIER];
    assert tiers[1..] == [COLD_TIER] && tiers[1..][1..] == [];
    assert Slots(tiers[1..][1..]) == [];
    assert PathSlots(COLD_TIER, [COLD]) == [Slot(COLD_TIER, COLD)] by {
      assert [COLD][1..] == [];
    }
    assert PathSlots(HotTier(ceiling), [HOT]) == [Slot(HotTier(ceiling), HOT)] by {
      assert [HOT][1..] == [];
    }
  }

  /** Its candidates: the one item to bring back, and the one to move off. */
  lemma {:induction false} GapCandidates(disk: Usage, n: nat, ceiling: real, size: nat, site: Site, reclaims: seq<Reclaim>, fills: seq<ItemEval>)
    requires n > disk.free && CandidatesOf(GapInput(disk, n, ceiling, size), site, reclaims, fills)
    ensures reclaims == [Reclaim(COMING, MarkedFavorite, COLD_TIER)] && fills == [Leaving(size)]
    ensures site.hotPaths == map[HOT := HotTier(ceiling)] && site.layout == GapInput(disk, n, ceiling, size).layout
  {
    var input := GapInput(disk, n, ceiling, size);
    GapUsage(disk, n, ceiling, size);
    GapReclaims(disk, n, ceiling, size, site, reclaims);
    GapEligible(size, site.hotPaths, fills);
  }

  lemma {:induction false} GapReclaims(disk: Usage, n: nat, ceiling: real, size: nat, site: Site, reclaims: seq<Reclaim>)
    requires n > disk.free
    requires var input := GapInput(disk, n, ceiling, size);
             && IsPathsOf(site.hotPaths, input.layout.tiers, Hot, input.usage)
             && exists coldPaths :: IsPathsOf(coldPaths, input.layout.tiers, Cold, input.usage) && reclaims == Misplaced(input.items, coldPaths)
    ensures reclaims == [Reclaim(COMING, MarkedFavorite, COLD_TIER)] && site.hotPaths == map[HOT := HotTier(ceiling)]
  {
    var input := GapInput(disk, n, ceiling, size);
    var coldPaths :| IsPathsOf(coldPaths, input.layout.tiers, Cold, input.usage) && reclaims == Misplaced(input.items, coldPaths);
    GapPaths(disk, n, ceiling, size, site.hotPaths, coldPaths);
    GapMisplaced(size, coldPaths);
  }

  lemma {:induction false} GapPaths(disk: Usage, n: nat, ceiling: real, size: nat, hotPaths: map<Path, Tier>, coldPaths: map<Path, Tier>)
    requires n > disk.free
    requires var input := GapInput(disk, n, ceiling, size);
             IsPathsOf(hotPaths, input.layout.tiers, Hot, input.usage) && IsPathsOf(coldPaths, input.layout.tiers, Cold, input.usage)
    ensures hotPaths == map[HOT := HotTier(ceiling)] && coldPaths == map[COLD := COLD_TIER]
  {
    var input := GapInput(disk, n, ceiling, size);
    GapUsage(disk, n, ceiling, size);
    assert HotTier(ceiling) in input.layout.tiers && COLD_TIER in input.layout.tiers;
    assert HOT in HotTier(ceiling).paths && COLD in COLD_TIER.paths;
    assert HOT in hotPaths && COLD in coldPaths;
  }

  lemma {:induction false} GapMisplaced(size: nat, coldPaths: map<Path, Tier>)
    requires coldPaths == map[COLD := COLD_TIER]
    ensures Misplaced([Leaving(size), COMING], coldPaths) == [Reclaim(COMING, MarkedFavorite, COLD_TIER)]
  {
    var items := [Leaving(size), COMING];
    assert items[..1] == [Leaving(size)] && items[..1][..0] == [] && HOT != COLD;
    assert Misplaced(items[..1][..0], coldPaths) == [];
    assert Misplaced(items[..1], coldPaths) == [];
  }

  lemma {:induction false} GapEligible(size: nat, hotPaths: map<Path, Tier>, fills: seq<ItemEval>)
    requires hotPaths.Keys == {HOT} && multiset(fills) == multiset(ColdEligibleOf([Leaving(size), COMING], hotPaths, {}, 0))
    ensures fills == [Leaving(size)]
  {
    var items := [Leaving(size), COMING];
    assert items[..1] == [Leaving(size)] && items[..1][..0] == [] && HOT != COLD;
    assert ColdEligibleOf(items[..1][..0], hotPaths, {}, 0) == [];
    assert ColdEligibleOf(items[..1], hotPaths, {}, 0) == [Leaving(size)];
    assert ColdEligibleOf(items, hotPaths, {}, 0) == [Leaving(size)];
    assert |multiset(fills)| == |fills| && fills[0] in multiset(fills);
  }

  /** The moves a plan for it can hold. */
  function MoveOff(ceiling: real, size: nat, phase: nat): MoveEntry {
    MoveEntry(Leaving(size).item, "hot", Hot, HOT, "cold", COLD, phase, 100.0)
  }

  function BringBack(ceiling: real, phase: nat): MoveEntry {
    MoveEntry(COMING.item, "cold", Cold, COLD, "hot", HOT, phase, ceiling)
  }

  lemma {:induction false} EntryIsOne(ceiling: real, size: nat, site: Site, e: MoveEntry)
    requires ceiling > 0.0 && site.layout.tiers == [HotTier(ceiling), COLD_TIER] && site.hotPaths == map[HOT := HotTier(ceiling)]
    requires DirectedEntry(site, [Reclaim(COMING, MarkedFavorite, COLD_TIER)], [Leaving(size)], e)
    ensures e == MoveOff(ceiling, size, e.phase) || e == BringBack(ceiling, e.phase)
  {
    if HotEntry(site.layout, [Reclaim(COMING, MarkedFavorite, COLD_TIER)], e) {
      var s :| s in Slots(site.layout.tiers) && s.tier.role == Hot && e == ReclaimEntry(Reclaim(COMING, MarkedFavorite, COLD_TIER), s, e.phase);
      HotSlots(ceiling, s);
    } else {
      var s :| s in Slots(site.layout.tiers) && s.tier.role == Cold && e == FillEntry(site, Leaving(size), s, e.phase);
      HotSlots(ceiling, s);
    }
  }

  /** Nothing can come first but the move that frees room. */
  lemma {:induction false} FirstMovesOff(usage: map<Path, Usage>, ceiling: real, size: nat, entries: seq<MoveEntry>)
    requires HOT in usage && usage[HOT].free == 0 && Sound(map[], usage, entries) && entries != []
    requires entries[0] == MoveOff(ceiling, size, entries[0].phase) || entries[0] == BringBack(ceiling, entries[0].phase)
    ensures entries[0] == MoveOff(ceiling, size, entries[0].phase)
  {
    assert Placed(map[], usage, entries, 0);
    var start: nat :| PlacedFrom(map[], usage, entries, start, 0);
    assert entries[..0] == [] && entries[0..0] == [];
  }

  /** At the start the item that leaves can go ... */
  lemma {:induction false} LeavingGoes(usage: map<Path, Usage>, ceiling: real, size: nat, site: Site)
    requires COLD in usage && usage[COLD] == Usage(size + 1, size, 1) && site.layout.tiers == [HotTier(ceiling), COLD_TIER]
    ensures PickFor(site, usage, Leaving(size)).Some?
  {
    var s := Slot(COLD_TIER, COLD);
    HotSlots(ceiling, s);
    PercentBound(size + 1, 0, 100.0);
    assert Viable(s, usage, Cold, Movie, size, MaxCeiling);
    PickFindsRoom(site.layout.tiers, usage, Movie, size);
  }

  /** ... and once it has, the other can come back, up to the highest level. */
  lemma {:induction false} ComingGoes(disk: Usage, n: nat, ceiling: real, usage: map<Path, Usage>)
    requires HasGap(disk, n, ceiling)
    requires var size := LeavingSize(disk, n, ceiling); 0 <= size <= disk.used && HOT in usage && usage[HOT] == Usage(disk.total, size, disk.used + n - size)
    ensures OptionsOf([HotTier(ceiling), COLD_TIER], usage, Reclaim(COMING, MarkedFavorite, COLD_TIER)) != []
  {
    GapSizes(disk, n, ceiling);
    var s := Slot(HotTier(ceiling), HOT);
    HotSlots(ceiling, s);
    PercentBound(HighestPlanned(disk, n, ceiling), LeavingSize(disk, n, ceiling) - 1, ceiling);
    assert HotViable(s, usage, Movie, 1);
    HotOptionsExact(Slots([HotTier(ceiling), COLD_TIER]), usage, Movie, 1, s);
  }

  lemma {:induction false} UsageAfterLeaving(disk: Usage, n: nat, ceiling: real, size: nat, phase: nat)
    requires n > disk.free && size <= disk.used
    ensures After(map[], GapInput(disk, n, ceiling, size).usage, [MoveOff(ceiling, size, phase)])[HOT] == Usage(disk.total, size, disk.used + n - size)
  {
    GapUsage(disk, n, ceiling, size);
    var usage := GapInput(disk, n, ceiling, size).usage;
    assert HOT != COLD;
    assert [MoveOff(ceiling, size, phase)][..0] == [];
    assert After(map[], usage, []) == usage;
  }

  // ----- both items end in the plan, in that order

  /** Where an item of Everything is. */
  lemma {:induction false} ItemSomewhere(entries: seq<MoveEntry>, reclaims: seq<Reclaim>, fills: seq<ItemEval>, it: Item)
    requires it in Everything(entries, reclaims, fills)
    ensures (exists k :: 0 <= k < |entries| && entries[k].item == it) || (exists k :: 0 <= k < |reclaims| && reclaims[k].eval.item == it) || exists k :: 0 <= k < |fills| && fills[k].item == it
  {
    if it in multiset(Mapped(EntryItem, entries)) {
      var k := MappedSomewhere(EntryItem, entries, it);
      assert entries[k].item == it;
    } else if it in multiset(Mapped(ReclaimItem, reclaims)) {
      var k := MappedSomewhere(ReclaimItem, reclaims, it);
      assert reclaims[k].eval.item == it;
    } else {
      var k := MappedSomewhere(FillItem, fills, it);
      assert fills[k].item == it;
    }
  }

  lemma {:induction false} MappedSomewhere<T, U>(f: T -> U, s: seq<T>, x: U) returns (k: nat)
    requires x in multiset(Mapped(f, s))
    ensures k < |s| && f(s[k]) == x
  {
    MappedAt(f, s);
    k :| 0 <= k < |Mapped(f, s)| && Mapped(f, s)[k] == x;
  }

  lemma {:induction false} TwoItems(size: nat)
    ensures Everything([], [Reclaim(COMING, MarkedFavorite, COLD_TIER)], [Leaving(size)]) == multiset{COMING.item, Leaving(size).item}
    ensures COMING.item != Leaving(size).item
  {
    var reclaims, fills := [Reclaim(COMING, MarkedFavorite, COLD_TIER)], [Leaving(size)];
    assert reclaims[..0] == [] && fills[..0] == [];
    assert Mapped(ReclaimItem, reclaims[..0]) == [] && Mapped(FillItem, fills[..0]) == [];
    assert Mapped(ReclaimItem, reclaims) == [COMING.item] && Mapped(FillItem, fills) == [Leaving(size).item];
    var none: seq<MoveEntry> := [];
    assert Mapped(EntryItem, none) == [];
  }

  lemma {:induction false} NoMoreThanItems(entries: seq<MoveEntry>, reclaims: seq<Reclaim>, fills: seq<ItemEval>, a: Item, b: Item)
    requires Everything(entries, reclaims, fills) == multiset{a, b} && a != b
    ensures |entries| <= 2
    ensures |entries| == 2 ==> entries[0].item != entries[1].item
  {
    MappedAt(EntryItem, entries);
    var items := Mapped(EntryItem, entries);
    assert |multiset(items)| == |items|;
    assert multiset(items) <= multiset{a, b};
    assert |multiset{a, b}| == 2;
    SubBound(multiset(items), multiset{a, b});
    if |entries| == 2 && items[0] == items[1] {
      TwiceCounts(items);
    }
  }

  lemma {:induction false} TwiceCounts<T>(s: seq<T>)
    requires |s| == 2 && s[0] == s[1]
    ensures multiset(s)[s[0]] == 2
  {
    assert s == [s[0], s[0]];
  }

  lemma {:induction false} SubBound<T>(x: multiset<T>, y: multiset<T>)
    requires x <= y
    ensures |x| <= |y|
  {
    assert y == x + (y - x);
  }

  /** What every plan Build can return for it does: the item that leaves moves off the hot path in a first
      phase, and the other comes back in a later one. */
  lemma {:induction false} GapPlan(disk: Usage, n: nat, ceiling: real, plan: Plan)
    requires HasGap(disk, n, ceiling) && Built(GapInput(disk, n, ceiling, LeavingSize(disk, n, ceiling)), plan)
    ensures |plan.entries| == 2 && plan.entries[0] == MoveOff(ceiling, LeavingSize(disk, n, ceiling), plan.entries[0].phase)
    ensures plan.entries[1] == BringBack(ceiling, plan.entries[1].phase) && plan.entries[0].phase < plan.entries[1].phase
  {
    GapSizes(disk, n, ceiling);
    var size := LeavingSize(disk, n, ceiling);
    var site := GapGood(disk, n, ceiling, size, plan);
    GapFirst(disk, n, ceiling, size, site, plan);
    GapSecond(disk, n, ceiling, site, plan);
  }

  /** What a good plan of those two candidates is. */
  ghost predicate GapFacts(usage: map<Path, Usage>, ceiling: real, size: nat, site: Site, plan: Plan) {
    && site.layout.tiers == [HotTier(ceiling), COLD_TIER] && site.hotPaths == map[HOT := HotTier(ceiling)]
    && Sound(map[], usage, plan.entries) && plan.finalUsage == After(map[], usage, plan.entries)
    && DirectedFrom(site, [Reclaim(COMING, MarkedFavorite, COLD_TIER)], [Leaving(size)], plan.entries, 0)
    && Everything(plan.entries, plan.leftReclaims, plan.leftFills) == multiset{COMING.item, Leaving(size).item}
    && Among(plan.leftReclaims, [Reclaim(COMING, MarkedFavorite, COLD_TIER)]) && Among(plan.leftFills, [Leaving(size)])
    && NoReclaimGoes(site.layout, plan.leftReclaims, plan.finalUsage) && NoFillGoes(site, plan.leftFills, plan.finalUsage)
  }

  lemma {:induction false} GapGood(disk: Usage, n: nat, ceiling: real, size: nat, plan: Plan) returns (site: Site)
    requires n > disk.free && Built(GapInput(disk, n, ceiling, size), plan)
    ensures GapFacts(GapInput(disk, n, ceiling, size).usage, ceiling, size, site, plan)
  {
    var input := GapInput(disk, n, ceiling, size);
    var place, reclaims, fills :| CandidatesOf(input, place, reclaims, fills) && GoodPlan(input, place, reclaims, fills, plan);
    GapCandidates(disk, n, ceiling, size, place, reclaims, fills);
    TwoItems(size);
    site := place;
  }

  lemma {:induction false} GapFirst(disk: Usage, n: nat, ceiling: real, size: nat, site: Site, plan: Plan)
    requires n > disk.free && 0.0 < ceiling && GapFacts(GapInput(disk, n, ceiling, size).usage, ceiling, size, site, plan)
    ensures 0 < |plan.entries| <= 2 && plan.entries[0] == MoveOff(ceiling, size, plan.entries[0].phase)
    ensures |plan.entries| == 2 ==> plan.entries[0].item != plan.entries[1].item
  {
    GapUsage(disk, n, ceiling, size);
    TwoItems(size);
    NoMoreThanItems(plan.entries, plan.leftReclaims, plan.leftFills, COMING.item, Leaving(size).item);
    SomethingMoves(disk, n, ceiling, size, site, plan);
    DirectedOne(ceiling, size, site, plan.entries, 0);
    FirstMovesOff(GapInput(disk, n, ceiling, size).usage, ceiling, size, plan.entries);
  }

  lemma {:induction false} GapSecond(disk: Usage, n: nat, ceiling: real, site: Site, plan: Plan)
    requires HasGap(disk, n, ceiling)
    requires GapFacts(GapInput(disk, n, ceiling, LeavingSize(disk, n, ceiling)).usage, ceiling, LeavingSize(disk, n, ceiling), site, plan)
    requires 0 < |plan.entries| <= 2 && plan.entries[0] == MoveOff(ceiling, LeavingSize(disk, n, ceiling), plan.entries[0].phase)
    requires |plan.entries| == 2 ==> plan.entries[0].item != plan.entries[1].item
    ensures |plan.entries| == 2 && plan.entries[1] == BringBack(ceiling, plan.entries[1].phase) && plan.entries[0].phase < plan.entries[1].phase
  {
    GapSizes(disk, n, ceiling);
    var size := LeavingSize(disk, n, ceiling);
    GapUsage(disk, n, ceiling, size);
    BothMove(disk, n, ceiling, site, plan);
    DirectedOne(ceiling, size, site, plan.entries, 1);
    SecondComesBack(ceiling, size, plan.entries);
    LaterPhase(GapInput(disk, n, ceiling, size).usage, ceiling, size, plan.entries);
  }

  lemma {:induction false} SecondComesBack(ceiling: real, size: nat, entries: seq<MoveEntry>)
    requires |entries| == 2 && entries[0].item != entries[1].item && entries[0] == MoveOff(ceiling, size, entries[0].phase)
    requires entries[1] == MoveOff(ceiling, size, entries[1].phase) || entries[1] == BringBack(ceiling, entries[1].phase)
    ensures entries[1] == BringBack(ceiling, entries[1].phase)
  {
  }

  lemma {:induction false} SomethingMoves(disk: Usage, n: nat, ceiling: real, size: nat, site: Site, plan: Plan)
    requires n > disk.free && site.layout.tiers == [HotTier(ceiling), COLD_TIER]
    requires Everything(plan.entries, plan.leftReclaims, plan.leftFills) == multiset{COMING.item, Leaving(size).item}
    requires Among(plan.leftReclaims, [Reclaim(COMING, MarkedFavorite, COLD_TIER)]) && Among(plan.leftFills, [Leaving(size)])
    requires plan.finalUsage == After(map[], GapInput(disk, n, ceiling, size).usage, plan.entries) && NoFillGoes(site, plan.leftFills, plan.finalUsage)
    ensures plan.entries != []
  {
    GapUsage(disk, n, ceiling, size);
    if plan.entries == [] {
      EmptyPlanGoes(GapInput(disk, n, ceiling, size).usage, ceiling, size, site, plan.leftReclaims, plan.leftFills);
    }
  }

  lemma {:induction false} BothMove(disk: Usage, n: nat, ceiling: real, site: Site, plan: Plan)
    requires HasGap(disk, n, ceiling) && site.layout.tiers == [HotTier(ceiling), COLD_TIER]
    requires var size := LeavingSize(disk, n, ceiling);
             && size >= 1
             && Everything(plan.entries, plan.leftReclaims, plan.leftFills) == multiset{COMING.item, Leaving(size).item}
             && Among(plan.leftReclaims, [Reclaim(COMING, MarkedFavorite, COLD_TIER)]) && Among(plan.leftFills, [Leaving(size)])
             && plan.finalUsage == After(map[], GapInput(disk, n, ceiling, size).usage, plan.entries) && NoReclaimGoes(site.layout, plan.leftReclaims, plan.finalUsage)
             && 0 < |plan.entries| <= 2 && plan.entries[0] == MoveOff(ceiling, size, plan.entries[0].phase)
    ensures |plan.entries| == 2
  {
    GapSizes(disk, n, ceiling);
    var size, e := LeavingSize(disk, n, ceiling), plan.entries[0];
    UsageAfterLeaving(disk, n, ceiling, size, e.phase);
    assert |plan.entries| == 1 ==> plan.entries == [e];
    if |plan.entries| == 1 {
      OneMoveGoes(disk, n, ceiling, plan.finalUsage, e, plan.leftReclaims, plan.leftFills, site.layout);
    }
  }

  lemma {:induction false} DirectedOne(ceiling: real, size: nat, site: Site, entries: seq<MoveEntry>, k: nat)
    requires ceiling > 0.0 && site.layout.tiers == [HotTier(ceiling), COLD_TIER] && site.hotPaths == map[HOT := HotTier(ceiling)]
    requires k < |entries| && DirectedFrom(site, [Reclaim(COMING, MarkedFavorite, COLD_TIER)], [Leaving(size)], entries, 0)
    ensures entries[k] == MoveOff(ceiling, size, entries[k].phase) || entries[k] == BringBack(ceiling, entries[k].phase)
  {
    EntryIsOne(ceiling, size, site, entries[k]);
  }

  lemma {:induction false} LeavingIsLeft(reclaims: seq<Reclaim>, fills: seq<ItemEval>, size: nat)
    requires Everything([], reclaims, fills) == multiset{COMING.item, Leaving(size).item}
    requires Among(reclaims, [Reclaim(COMING, MarkedFavorite, COLD_TIER)]) && Among(fills, [Leaving(size)])
    ensures fills != [] && fills[0] == Leaving(size)
  {
    ItemSomewhere([], reclaims, fills, Leaving(size).item);
    NotLeaving(reclaims, size);
  }

  lemma {:induction false} NotLeaving(reclaims: seq<Reclaim>, size: nat)
    requires Among(reclaims, [Reclaim(COMING, MarkedFavorite, COLD_TIER)])
    ensures forall k :: 0 <= k < |reclaims| ==> reclaims[k].eval.item != Leaving(size).item
  {
    TwoItems(size);
  }

  /** A plan without entries leaves a fill that can go. */
  lemma {:induction false} EmptyPlanGoes(usage: map<Path, Usage>, ceiling: real, size: nat, site: Site, reclaims: seq<Reclaim>, fills: seq<ItemEval>)
    requires COLD in usage && usage[COLD] == Usage(size + 1, size, 1) && site.layout.tiers == [HotTier(ceiling), COLD_TIER]
    requires Everything([], reclaims, fills) == multiset{COMING.item, Leaving(size).item}
    requires Among(reclaims, [Reclaim(COMING, MarkedFavorite, COLD_TIER)]) && Among(fills, [Leaving(size)])
    ensures !NoFillGoes(site, fills, usage)
  {
    LeavingIsLeft(reclaims, fills, size);
    LeavingGoes(usage, ceiling, size, site);
    assert PickFor(site, usage, fills[0]).Some?;
  }

  lemma {:induction false} ComingIsLeft(e: MoveEntry, reclaims: seq<Reclaim>, fills: seq<ItemEval>, size: nat)
    requires e.item == Leaving(size).item && Everything([e], reclaims, fills) == multiset{COMING.item, Leaving(size).item}
    requires Among(reclaims, [Reclaim(COMING, MarkedFavorite, COLD_TIER)]) && Among(fills, [Leaving(size)])
    ensures reclaims != [] && reclaims[0] == Reclaim(COMING, MarkedFavorite, COLD_TIER)
  {
    TwoItems(size);
    ItemSomewhere([e], reclaims, fills, COMING.item);
    NotComing(fills, size);
  }

  lemma {:induction false} NotComing(fills: seq<ItemEval>, size: nat)
    requires Among(fills, [Leaving(size)])
    ensures forall k :: 0 <= k < |fills| ==> fills[k].item != COMING.item
  {
    TwoItems(size);
  }

  /** A plan that only moves the one item off leaves a reclaim that can come back. */
  lemma {:induction false} OneMoveGoes(disk: Usage, n: nat, ceiling: real, usage: map<Path, Usage>, e: MoveEntry, reclaims: seq<Reclaim>, fills: seq<ItemEval>, layout: Layout)
    requires HasGap(disk, n, ceiling) && layout.tiers == [HotTier(ceiling), COLD_TIER]
    requires var size := LeavingSize(disk, n, ceiling);
             && size >= 1 && e.item == Leaving(size).item && Everything([e], reclaims, fills) == multiset{COMING.item, Leaving(size).item}
             && Among(reclaims, [Reclaim(COMING, MarkedFavorite, COLD_TIER)]) && Among(fills, [Leaving(size)])
             && HOT in usage && usage[HOT] == Usage(disk.total, size, disk.used + n - size)
    ensures !NoReclaimGoes(layout, reclaims, usage)
  {
    ComingIsLeft(e, reclaims, fills, LeavingSize(disk, n, ceiling));
    ComingGoes(disk, n, ceiling, usage);
    assert OptionsOf(layout.tiers, usage, reclaims[0]) != [];
  }

  /** In one phase the freed room does not count. */
  lemma {:induction false} LaterPhase(usage: map<Path, Usage>, ceiling: real, size: nat, entries: seq<MoveEntry>)
    requires usage.Keys == {HOT, COLD} && usage[HOT].free == 0 && Sound(map[], usage, entries) && |entries| == 2
    requires entries[0] == MoveOff(ceiling, size, entries[0].phase) && entries[1] == BringBack(ceiling, entries[1].phase)
    ensures entries[0].phase < entries[1].phase
  {
    SamePhaseNoRoom(usage, ceiling, size, entries);
    assert Placed(map[], usage, entries, 1);
    var start: nat :| PlacedFrom(map[], usage, entries, start, 1);
  }

  lemma {:induction false} SamePhaseNoRoom(usage: map<Path, Usage>, ceiling: real, size: nat, entries: seq<MoveEntry>)
    requires usage.Keys == {HOT, COLD} && usage[HOT].free == 0 && |entries| == 2
    requires entries[0] == MoveOff(ceiling, size, entries[0].phase) && entries[1] == BringBack(ceiling, entries[1].phase)
    ensures !Admits(Reserved(map[], After(map[], usage, entries[..0]), entries[0..1]), entries[1])
  {
    assert HOT != COLD;
    assert entries[..0] == [] && entries[0..1] == [entries[0]] && [entries[0]][..0] == [];
    assert After(map[], usage, []) == usage && Reserved(map[], usage, []) == usage;
    assert Reserved(map[], usage, [entries[0]])[HOT] == usage[HOT];
  }

  // ----- the run that is refused

  /** What downloads can have written once the item has left: all that was reserved, or all there is room for. */
  function WrittenBy(disk: Usage, n: nat, size: nat): nat {
    if n <= disk.free + size then n else disk.free + size
  }

  /** What the hot path reads then. */
  function GapReading(disk: Usage, n: nat, size: nat): Usage
    requires size <= disk.used
  {
    Usage(disk.total, disk.free + size - WrittenBy(disk, n, size), disk.used - size + WrittenBy(disk, n, size))
  }

  lemma {:induction false} NoRoomThen(disk: Usage, n: nat, ceiling: real, phase: nat)
    requires HasGap(disk, n, ceiling)
    ensures var size := LeavingSize(disk, n, ceiling); 0 <= size <= disk.used && !HasRoom(Some(GapReading(disk, n, size)), MoveOf(BringBack(ceiling, phase)))
  {
    GapSizes(disk, n, ceiling);
    var size, level := LeavingSize(disk, n, ceiling), HighestPlanned(disk, n, ceiling);
    var u := GapReading(disk, n, size);
    if u.free >= 1 {
      assert u.used + 1 == level;
      PercentBound(u.used + 1, u.free - 1, ceiling);
    }
  }

  lemma {:induction false} ReadThen(disk: Usage, n: nat, ceiling: real, size: nat, entries: seq<MoveEntry>)
    requires size <= disk.used && |entries| == 2 && entries[0] == MoveOff(ceiling, size, entries[0].phase) && entries[1] == BringBack(ceiling, entries[1].phase)
    ensures ReadsWith(map[], entries, disk, WrittenBy(disk, n, size), [size, 0], [size, 0], HOT, GapReading(disk, n, size))
  {
    var amounts := [size, 0];
    assert HOT != COLD;
    assert amounts[..1] == [size] && entries[..1] == [entries[0]] && amounts[..1][..0] == [] && entries[..1][..0] == [];
    assert Into(map[], entries[..1][..0], amounts[..1][..0], HOT) == 0 && OutOf(map[], entries[..1][..0], amounts[..1][..0], HOT) == 0;
    assert Into(map[], entries[..1], amounts[..1], HOT) == 0 && OutOf(map[], entries[..1], amounts[..1], HOT) == size;
  }

  /** The run of such a plan: one queue for each path. */
  function GapJob(entries: seq<MoveEntry>): Job
    requires |entries| == 2
  {
    Job([MoveOf(entries[0]), MoveOf(entries[1])], [OwnPath(COLD), OwnPath(HOT)], [entries[0].phase, entries[1].phase])
  }

  /** The first phase in progress, the second, and what the engine does in between. */
  function InFirst(stage: Stage, status: Status, requests: seq<nat>, landed: set<nat>): State {
    State([status, Pending], 0, map[OwnPath(COLD) := Worker([0], stage)], true, requests, {}, landed, false)
  }

  function InSecond(stage: Stage, status: Status): State {
    State([Done, status], 1, map[OwnPath(HOT) := Worker([1], stage)], true, [0], {}, {0}, false)
  }

  lemma {:induction false} GapQueues(entries: seq<MoveEntry>)
    requires |entries| == 2 && entries[0].phase < entries[1].phase
    ensures var job := GapJob(entries);
            WorkersFor(job, entries[0].phase) == map[OwnPath(COLD) := Worker([0], Idle)] && WorkersFor(job, entries[1].phase) == map[OwnPath(HOT) := Worker([1], Idle)]
  {
    var job := GapJob(entries);
    assert HOT != COLD && job.keys == [OwnPath(COLD), OwnPath(HOT)];
    QueueOf(job, entries[0].phase, OwnPath(COLD));
    QueueOf(job, entries[1].phase, OwnPath(HOT));
    assert InQueue(job, entries[0].phase, job.keys[0], 0) && InQueue(job, entries[1].phase, job.keys[1], 1);
    assert KeysIn(job, entries[0].phase) == {OwnPath(COLD)} && KeysIn(job, entries[1].phase) == {OwnPath(HOT)};
    assert [0] + [] == [0] && [] + [1] == [1];
    assert QueueFrom(job, entries[0].phase, OwnPath(COLD), 0) == [0] && QueueFrom(job, entries[1].phase, OwnPath(HOT), 0) == [1];
  }

  lemma {:induction false} QueueOf(job: Job, phase: int, key: VolumeKey)
    requires |job.moves| == |job.keys| == 2
    ensures QueueFrom(job, phase, key, 0) == (if InQueue(job, phase, key, 0) then [0] else []) + if InQueue(job, phase, key, 1) then [1] else []
  {
    assert QueueFrom(job, phase, key, 2) == [];
    assert QueueFrom(job, phase, key, 1) == if InQueue(job, phase, key, 1) then [1] else [];
  }

  /** The first phase once its move has landed. */
  function FirstOver(): State {
    State([Done, Pending], 0, map[OwnPath(COLD) := Worker([], Idle)], true, [0], {}, {0}, false)
  }

  ghost predicate StepsTo(job: Job, s: State, ev: Event, t: State) {
    Enabled(job, s, ev) && WellSized(job, s) && Step(job, s, ev) == t
  }

  lemma {:induction false} Begins(job: Job)
    requires |job.moves| == |job.phases| == 2
    ensures StepsTo(job, InFirst(Idle, Pending, [], {}), Begin(OwnPath(COLD)), InFirst(Checking, Moving, [], {}))
  {
  }

  lemma {:induction false} Checks(job: Job)
    requires |job.moves| == |job.phases| == 2
    ensures StepsTo(job, InFirst(Checking, Moving, [], {}), Storage(OwnPath(COLD), true), InFirst(Verifying, Moving, [], {}))
  {
  }

  lemma {:induction false} HasAnswer(job: Job)
    requires |job.moves| == |job.phases| == 2
    ensures StepsTo(job, InFirst(Requesting, Moving, [], {}), Answered(OwnPath(COLD), Accepted), InFirst(Settling, Moving, [0], {}))
  {
  }

  lemma {:induction false} Settles(job: Job)
    requires |job.moves| == |job.phases| == 2
    ensures StepsTo(job, InFirst(Settling, Moving, [0], {}), Settled(OwnPath(COLD), true), InFirst(Recording, Moving, [0], {0}))
  {
  }

  lemma {:induction false} Records(job: Job)
    requires |job.moves| == |job.phases| == 2
    ensures StepsTo(job, InFirst(Recording, Moving, [0], {0}), Recorded(OwnPath(COLD), true), FirstOver())
  {
  }

  lemma {:induction false} FindsRoom(job: Job, reading: Usage)
    requires |job.moves| == |job.phases| == 2 && HasRoom(Some(reading), job.moves[0])
    ensures StepsTo(job, InFirst(Verifying, Moving, [], {}), Room(OwnPath(COLD), Some(reading)), InFirst(Requesting, Moving, [], {}))
  {
  }

  lemma {:induction false} StepOn(job: Job, s: State, ev: Event, t: State, rest: seq<Event>, end: State) returns (events: seq<Event>)
    requires StepsTo(job, s, ev, t) && Reached(job, t, rest) == Some(end)
    ensures Reached(job, s, events) == Some(end)
  {
    events := [ev] + rest;
    assert events[1..] == rest;
  }

  /** With the first move landed, the engine comes to check room for the second. */
  lemma {:induction false} GapRun(entries: seq<MoveEntry>, reading: Usage) returns (events: seq<Event>)
    requires |entries| == 2 && entries[0].phase < entries[1].phase && HasRoom(Some(reading), MoveOf(entries[0]))
    ensures Reached(GapJob(entries), Start(GapJob(entries)), events) == Some(InSecond(Verifying, Moving))
  {
    var job, end := GapJob(entries), InSecond(Verifying, Moving);
    GapQueues(entries);
    events := AfterFirst(job);
    events := FirstPhase(job, reading, events, end);
    assert Start(job) == InFirst(Idle, Pending, [], {});
  }

  lemma {:induction false} AfterFirst(job: Job) returns (events: seq<Event>)
    requires |job.moves| == |job.phases| == 2 && WorkersFor(job, job.phases[1]) == map[OwnPath(HOT) := Worker([1], Idle)]
    ensures Reached(job, FirstOver(), events) == Some(InSecond(Verifying, Moving))
  {
    events := SecondPhase(job);
    PhaseEnds(job);
    events := StepOn(job, FirstOver(), NextPhase, InSecond(Idle, Pending), events, InSecond(Verifying, Moving));
  }

  lemma {:induction false} PhaseEnds(job: Job)
    requires |job.moves| == |job.phases| == 2 && WorkersFor(job, job.phases[1]) == map[OwnPath(HOT) := Worker([1], Idle)]
    ensures StepsTo(job, FirstOver(), NextPhase, InSecond(Idle, Pending))
  {
  }

  lemma {:induction false} SecondPhase(job: Job) returns (events: seq<Event>)
    requires |job.moves| == |job.phases| == 2
    ensures Reached(job, InSecond(Idle, Pending), events) == Some(InSecond(Verifying, Moving))
  {
    var h, end := OwnPath(HOT), InSecond(Verifying, Moving);
    assert Reached(job, end, []) == Some(end);
    events := StepOn(job, InSecond(Checking, Moving), Storage(h, true), end, [], end);
    events := StepOn(job, InSecond(Idle, Pending), Begin(h), InSecond(Checking, Moving), events, end);
  }

  lemma {:induction false} FirstPhase(job: Job, reading: Usage, rest: seq<Event>, end: State) returns (events: seq<Event>)
    requires |job.moves| == |job.phases| == 2 && HasRoom(Some(reading), job.moves[0]) && Reached(job, FirstOver(), rest) == Some(end)
    ensures Reached(job, InFirst(Idle, Pending, [], {}), events) == Some(end)
  {
    events := LandingPart(job, rest, end);
    FindsRoom(job, reading);
    events := StepOn(job, InFirst(Verifying, Moving, [], {}), Room(OwnPath(COLD), Some(reading)), InFirst(Requesting, Moving, [], {}), events, end);
    Checks(job);
    events := StepOn(job, InFirst(Checking, Moving, [], {}), Storage(OwnPath(COLD), true), InFirst(Verifying, Moving, [], {}), events, end);
    Begins(job);
    events := StepOn(job, InFirst(Idle, Pending, [], {}), Begin(OwnPath(COLD)), InFirst(Checking, Moving, [], {}), events, end);
  }

  lemma {:induction false} LandingPart(job: Job, rest: seq<Event>, end: State) returns (events: seq<Event>)
    requires |job.moves| == |job.phases| == 2 && Reached(job, FirstOver(), rest) == Some(end)
    ensures Reached(job, InFirst(Requesting, Moving, [], {}), events) == Some(end)
  {
    Records(job);
    events := StepOn(job, InFirst(Recording, Moving, [0], {0}), Recorded(OwnPath(COLD), true), FirstOver(), rest, end);
    Settles(job);
    events := StepOn(job, InFirst(Settling, Moving, [0], {}), Settled(OwnPath(COLD), true), InFirst(Recording, Moving, [0], {0}), events, end);
    HasAnswer(job);
    events := StepOn(job, InFirst(Requesting, Moving, [], {}), Answered(OwnPath(COLD), Accepted), InFirst(Settling, Moving, [0], {}), events, end);
  }

  /** So where room is not kept, there is an input on which whatever plan Build returns, some run of it comes
      to an entry that the room check refuses, with no more than the reserved bytes written by then. */
  lemma {:induction false} GapIsRefused(disk: Usage, n: nat, ceiling: real, plan: Plan) returns (job: Job, events: seq<Event>, u: Usage)
    requires HasGap(disk, n, ceiling) && Built(GapInput(disk, n, ceiling, LeavingSize(disk, n, ceiling)), plan)
    ensures var input, size := GapInput(disk, n, ceiling, LeavingSize(disk, n, ceiling)), LeavingSize(disk, n, ceiling);
            && ValidTiers(input.layout.tiers) && Coherent(input.layout.volumeOf, input.usage) && input.usage == ApplyReservations(Disks(disk, size), map[HOT := n])
            && WeightOn(input.layout.volumeOf, Mapped(FillItem, input.items), HOT) <= disk.used
            && Runs(job, plan.entries, input.layout.volumeOf) && Reached(job, Start(job), events).Some?
            && var s, k := Reached(job, Start(job), events).value, OwnPath(HOT);
               && Enabled(job, s, Room(k, Some(u))) && Head(s, k) == 1 < |plan.entries| && Physical(job, s, [size, 0], [size, 0])
               && plan.entries[1].toPath == HOT && plan.entries[1].maxUsedPercent == ceiling && WrittenBy(disk, n, size) <= n
               && ReadsWith(input.layout.volumeOf, plan.entries, disk, WrittenBy(disk, n, size), [size, 0], [size, 0], HOT, u)
               && !HasRoom(Some(u), job.moves[1])
  {
    var size := LeavingSize(disk, n, ceiling);
    GapSizes(disk, n, ceiling);
    GapPlan(disk, n, ceiling, plan);
    GapValid(disk, n, ceiling, size);
    GapWeight(size);
    job := GapJob(plan.entries);
    var reading := Usage(size + 1, size, 1);
    RoomForLeaving(ceiling, size, plan.entries[0].phase);
    events := GapRun(plan.entries, reading);
    u := GapReading(disk, n, size);
    NoRoomThen(disk, n, ceiling, plan.entries[1].phase);
    ReadThen(disk, n, ceiling, size, plan.entries);
    GapRuns(ceiling, size, plan.entries);
  }

  lemma {:induction false} RoomForLeaving(ceiling: real, size: nat, phase: nat)
    ensures HasRoom(Some(Usage(size + 1, size, 1)), MoveOf(MoveOff(ceiling, size, phase)))
  {
    PercentBound(size + 1, 0, 100.0);
  }

  lemma {:induction false} GapItems(size: nat)
    ensures Mapped(FillItem, [Leaving(size), COMING]) == [Leaving(size).item, COMING.item]
  {
    MappedAt(FillItem, [Leaving(size), COMING]);
  }

  lemma {:induction false} GapWeight(size: nat)
    ensures WeightOn(map[], Mapped(FillItem, [Leaving(size), COMING]), HOT) == size
  {
    GapItems(size);
    var all := [Leaving(size).item, COMING.item];
    assert HOT != COLD;
    assert all[..1] == [Leaving(size).item];
    OneWeight(Leaving(size).item);
  }

  lemma {:induction false} OneWeight(it: Item)
    ensures WeightOn(map[], [it], HOT) == WeightOf(map[], it, HOT)
  {
    assert [it][..0] == [];
    assert WeightOn(map[], [], HOT) == 0;
  }

  lemma {:induction false} GapRuns(ceiling: real, size: nat, entries: seq<MoveEntry>)
    requires |entries| == 2 && entries[0] == MoveOff(ceiling, size, entries[0].phase) && entries[1] == BringBack(ceiling, entries[1].phase)
    requires entries[0].phase < entries[1].phase
    ensures Runs(GapJob(entries), entries, map[]) && Physical(GapJob(entries), InSecond(Verifying, Moving), [size, 0], [size, 0])
  {
    var job := GapJob(entries);
    assert job.keys[0] == OwnPath(COLD) && job.keys[1] == OwnPath(HOT);
  }

  /** In numbers: 10 bytes free of 1000 and 100 reserved, under the default ceiling. A plan counts on a level
      of 980 once 200 bytes have left and 90 come back; with the 100 written, that is 98% used. */
  lemma {:induction false} ClampedReservation(phase: int)
    ensures var disk := Usage(1000, 10, 990);
            && HasGap(disk, 100, DEFAULT_HOT_MAX_USED_PERCENT) && Fits(Reserve(disk, 100).Plus(-200), 90, DEFAULT_HOT_MAX_USED_PERCENT)
            && !HasRoom(Some(Usage(1000, 110, 890)), Move(90, HOT, phase, DEFAULT_HOT_MAX_USED_PERCENT))
  {
    PercentBound(980, 110, 97.0);
    PercentBound(980, 20, 97.0);
    assert (97.0 * 1090.0 / 100.0).Floor == 1057;
  }
}
