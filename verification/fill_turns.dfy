/** In what order fills are planned, and where each goes (internal/planner). */
module FillTurns {
  import opened DiskUsage
  import opened PlannerModel
  import opened Destinations
  import opened Reclaims
  import opened ReclaimPhase
  import opened FillPhase
  import opened Planner
  import opened PlanRounds
  import opened Build
  import opened PlanContents
  import opened Sorting

  // ----- holding more room

  lemma {:induction false} HeldFirst(volumeOf: map<Path, nat>, usage: map<Path, Usage>, e: MoveEntry, rest: seq<MoveEntry>)
    ensures Reserved(volumeOf, usage, [e] + rest) == Reserved(volumeOf, Applied(volumeOf, usage, e.toPath, e.item.size), rest)
    decreases |rest|
  {
    var all := [e] + rest;
    var n := |rest|;
    if n == 0 {
      assert all == [e] && all[..0] == [];
    } else {
      HeldFirst(volumeOf, usage, e, rest[..n - 1]);
      assert all[..n] == [e] + rest[..n - 1] && all[n] == rest[n - 1];
    }
  }

  ghost predicate NoFuller(usage: map<Path, Usage>, later: map<Path, Usage>) {
    usage.Keys == later.Keys && forall p :: p in usage ==> usage[p].NoFullerThan(later[p]) && usage[p].total == later[p].total
  }

  ghost predicate NoneNegative(entries: seq<MoveEntry>) {
    forall k :: 0 <= k < |entries| ==> entries[k].item.size >= 0
  }

  lemma {:induction false} MoreHeld(volumeOf: map<Path, nat>, usage: map<Path, Usage>, entries: seq<MoveEntry>)
    requires NoneNegative(entries)
    ensures NoFuller(usage, Reserved(volumeOf, usage, entries))
    decreases |entries|
  {
    if entries != [] {
      MoreHeld(volumeOf, usage, entries[..|entries| - 1]);
    }
  }

  // ----- no room, and the fullest path with room

  /** No cold path has room for the item, whatever its target. */
  ghost predicate NoColdRoom(tiers: seq<Tier>, usage: map<Path, Usage>, it: Item) {
    forall t, p :: t in tiers && t.role == Cold ==> !RoomOn(t, p, usage, it, t.max)
  }

  lemma {:induction false} RoomStays(t: Tier, p: Path, usage: map<Path, Usage>, later: map<Path, Usage>, it: Item, ceiling: real)
    requires NoFuller(usage, later) && RoomOn(t, p, later, it, ceiling)
    ensures RoomOn(t, p, usage, it, ceiling)
  {
    FitsIsRoom(later[p], it.size, ceiling);
    FitsMonotone(usage[p], later[p], it.size, ceiling, ceiling);
    FitsIsRoom(usage[p], it.size, ceiling);
  }

  lemma {:induction false} StillNoRoom(tiers: seq<Tier>, usage: map<Path, Usage>, later: map<Path, Usage>, it: Item)
    requires NoFuller(usage, later) && NoColdRoom(tiers, usage, it)
    ensures NoColdRoom(tiers, later, it)
  {
    forall t, p | t in tiers && t.role == Cold
      ensures !RoomOn(t, p, later, it, t.max)
    {
      if RoomOn(t, p, later, it, t.max) {
        RoomStays(t, p, usage, later, it, t.max);
      }
    }
  }

  lemma {:induction false} NotPicked(tiers: seq<Tier>, usage: map<Path, Usage>, it: Item)
    requires ValidTiers(tiers) && Pick(tiers, usage, it.mediaType, it.size).None?
    ensures NoColdRoom(tiers, usage, it)
  {
    forall t, p | t in tiers && t.role == Cold
      ensures !RoomOn(t, p, usage, it, t.max)
    {
      NoPickNoRoom(tiers, usage, it, t, p);
    }
  }

  /** Under the one kind of ceiling there is room on path, and on no fuller one. */
  ghost predicate Fullest(tiers: seq<Tier>, usage: map<Path, Usage>, it: Item, ceiling: Tier -> real, path: Path) {
    && (exists t :: t in tiers && t.role == Cold && RoomOn(t, path, usage, it, ceiling(t)))
    && forall t, p :: t in tiers && t.role == Cold && RoomOn(t, p, usage, it, ceiling(t)) ==> usage[p].UsedPercent() <= usage[path].UsedPercent()
  }

  ghost predicate NoRoomUnder(tiers: seq<Tier>, usage: map<Path, Usage>, it: Item, ceiling: Tier -> real) {
    forall t, p :: t in tiers && t.role == Cold ==> !RoomOn(t, p, usage, it, ceiling(t))
  }

  /** The fullest path with room under its target, or with none there the fullest under its max. */
  ghost predicate GoesToFullest(tiers: seq<Tier>, usage: map<Path, Usage>, it: Item, path: Path) {
    Fullest(tiers, usage, it, (t: Tier) => t.target, path)
    || (NoRoomUnder(tiers, usage, it, (t: Tier) => t.target) && Fullest(tiers, usage, it, (t: Tier) => t.max, path))
  }

  lemma {:induction false} ViableIsRoom(t: Tier, p: Path, usage: map<Path, Usage>, it: Item, ceiling: Tier -> real)
    requires t.role == Cold && p in t.paths
    ensures Viable(Slot(t, p), usage, Cold, it.mediaType, it.size, ceiling) <==> RoomOn(t, p, usage, it, ceiling(t))
  {
    if p in usage {
      FitsIsRoom(usage[p], it.size, ceiling(t));
    }
  }

  lemma {:induction false} SlotIsFullest(tiers: seq<Tier>, usage: map<Path, Usage>, it: Item, ceiling: Tier -> real, named: Tier -> real, k: nat)
    requires forall t :: ceiling(t) == named(t)
    requires k < |Slots(tiers)| && FullestUnder(Slots(tiers), usage, it.mediaType, it.size, ceiling, k)
    ensures Fullest(tiers, usage, it, named, Slots(tiers)[k].path)
  {
    var slots := Slots(tiers);
    var s := slots[k];
    SlotsFromTiers(tiers, s);
    ViableIsRoom(s.tier, s.path, usage, it, ceiling);
    assert RoomOn(s.tier, s.path, usage, it, named(s.tier));
    forall t, p | t in tiers && t.role == Cold && RoomOn(t, p, usage, it, named(t))
      ensures usage[p].UsedPercent() <= usage[s.path].UsedPercent()
    {
      InSlots(tiers, t, p);
      ViableIsRoom(t, p, usage, it, ceiling);
      var j :| 0 <= j < |slots| && slots[j] == Slot(t, p);
    }
  }

  lemma {:induction false} NoneIsNoRoom(tiers: seq<Tier>, usage: map<Path, Usage>, it: Item, ceiling: Tier -> real, named: Tier -> real)
    requires forall t :: ceiling(t) == named(t)
    requires NoneUnder(Slots(tiers), usage, it.mediaType, it.size, ceiling)
    ensures NoRoomUnder(tiers, usage, it, named)
  {
    forall t, p | t in tiers && t.role == Cold
      ensures !RoomOn(t, p, usage, it, named(t))
    {
      if RoomOn(t, p, usage, it, named(t)) {
        InSlots(tiers, t, p);
        ViableIsRoom(t, p, usage, it, ceiling);
      }
    }
  }

  /** Where a fill goes, in numbers. */
  lemma {:induction false} PickGoesToFullest(tiers: seq<Tier>, usage: map<Path, Usage>, it: Item)
    requires Pick(tiers, usage, it.mediaType, it.size).Some?
    ensures GoesToFullest(tiers, usage, it, Pick(tiers, usage, it.mediaType, it.size).value.path)
  {
    var k := PickIsFullest(tiers, usage, it.mediaType, it.size);
    if FullestUnder(Slots(tiers), usage, it.mediaType, it.size, TargetCeiling, k) {
      SlotIsFullest(tiers, usage, it, TargetCeiling, (t: Tier) => t.target, k);
    } else {
      NoneIsNoRoom(tiers, usage, it, TargetCeiling, (t: Tier) => t.target);
      SlotIsFullest(tiers, usage, it, MaxCeiling, (t: Tier) => t.max, k);
    }
  }

  // ----- taking fills in turn

  /** Entry k of a fill phase moves the fill at a: every fill listed before that one is moved already or has no
      room on any cold path, and it goes to the fullest path, room being held for the entries before. */
  ghost predicate Turn(layout: Layout, fills: seq<ItemEval>, usage: map<Path, Usage>, picks: seq<MoveEntry>, k: nat, a: nat)
    requires k < |picks|
  {
    var held := Reserved(layout.volumeOf, usage, picks[..k]);
    && a < |fills| && picks[k].item == fills[a].item && GoesToFullest(layout.tiers, held, fills[a].item, picks[k].toPath)
    && forall i :: 0 <= i < a ==> MovedBy(picks[..k], fills[i].item) || NoColdRoom(layout.tiers, held, fills[i].item)
  }

  lemma {:induction false} PicksNonNegative(site: Site, fills: seq<ItemEval>, usage: map<Path, Usage>, phase: nat)
    requires OnHot(site, fills) && ValidTiers(site.layout.tiers)
    ensures NoneNegative(AllPicks(site, fills, usage, phase))
    decreases |fills|
  {
    if fills != [] {
      var dest := PickFor(site, usage, fills[0]);
      if dest.None? {
        PicksNonNegative(site, fills[1..], usage, phase);
      } else {
        PickAdmits(site, fills[0], usage, phase);
        PicksNonNegative(site, fills[1..], Applied(site.layout.volumeOf, usage, dest.value.path, fills[0].item.size), phase);
      }
    }
  }

  lemma {:induction false} TurnAfterSkip(site: Site, fills: seq<ItemEval>, usage: map<Path, Usage>, picks: seq<MoveEntry>, k: nat, a: nat)
    requires fills != [] && k < |picks| && NoneNegative(picks) && Turn(site.layout, fills[1..], usage, picks, k, a)
    requires NoColdRoom(site.layout.tiers, usage, fills[0].item)
    ensures Turn(site.layout, fills, usage, picks, k, a + 1)
  {
    var held := Reserved(site.layout.volumeOf, usage, picks[..k]);
    MoreHeld(site.layout.volumeOf, usage, picks[..k]);
    StillNoRoom(site.layout.tiers, usage, held, fills[0].item);
    forall i | 0 <= i < a + 1
      ensures MovedBy(picks[..k], fills[i].item) || NoColdRoom(site.layout.tiers, held, fills[i].item)
    {
      if i > 0 {
        assert fills[i] == fills[1..][i - 1];
      }
    }
  }

  lemma {:induction false} MovedByMore(e: MoveEntry, entries: seq<MoveEntry>, it: Item)
    requires MovedBy(entries, it)
    ensures MovedBy([e] + entries, it)
  {
    var k :| 0 <= k < |entries| && entries[k].item == it;
    assert ([e] + entries)[k + 1].item == it;
  }

  lemma {:induction false} TurnAfterPick(site: Site, fills: seq<ItemEval>, usage: map<Path, Usage>, e: MoveEntry, rest: seq<MoveEntry>, k: nat, a: nat)
    requires fills != [] && k < |rest| && e.item == fills[0].item
    requires Turn(site.layout, fills[1..], Applied(site.layout.volumeOf, usage, e.toPath, e.item.size), rest, k, a)
    ensures Turn(site.layout, fills, usage, [e] + rest, k + 1, a + 1)
  {
    var picks := [e] + rest;
    var held := Reserved(site.layout.volumeOf, usage, picks[..k + 1]);
    assert picks[..k + 1] == [e] + rest[..k];
    HeldFirst(site.layout.volumeOf, usage, e, rest[..k]);
    forall i | 0 <= i < a + 1
      ensures MovedBy(picks[..k + 1], fills[i].item) || NoColdRoom(site.layout.tiers, held, fills[i].item)
    {
      if i == 0 {
        assert picks[..k + 1][0] == e;
      } else {
        assert fills[i] == fills[1..][i - 1];
        if MovedBy(rest[..k], fills[i].item) {
          MovedByMore(e, rest[..k], fills[i].item);
        }
      }
    }
  }

  /** Every pick is made in turn. */
  lemma {:induction false} PicksInTurn(site: Site, fills: seq<ItemEval>, usage: map<Path, Usage>, phase: nat, k: nat) returns (a: nat)
    requires OnHot(site, fills) && ValidTiers(site.layout.tiers) && k < |AllPicks(site, fills, usage, phase)|
    ensures Turn(site.layout, fills, usage, AllPicks(site, fills, usage, phase), k, a)
    decreases |fills|
  {
    var picks := AllPicks(site, fills, usage, phase);
    var dest := PickFor(site, usage, fills[0]);
    if dest.None? {
      a := PicksInTurn(site, fills[1..], usage, phase, k);
      NotPicked(site.layout.tiers, usage, fills[0].item);
      PicksNonNegative(site, fills, usage, phase);
      TurnAfterSkip(site, fills, usage, picks, k, a);
      a := a + 1;
    } else {
      var e := FillEntry(site, fills[0], dest.value, phase);
      if k == 0 {
        PickGoesToFullest(site.layout.tiers, usage, fills[0].item);
        assert picks[..0] == [];
        a := 0;
      } else {
        var held := Applied(site.layout.volumeOf, usage, e.toPath, e.item.size);
        a := PicksInTurn(site, fills[1..], held, phase, k - 1);
        TurnAfterPick(site, fills, usage, e, AllPicks(site, fills[1..], held, phase), k - 1, a);
        a := a + 1;
      }
    }
  }

  /** Picks are in the order of the fills they move. */
  lemma {:induction false} PicksInOrder(site: Site, fills: seq<ItemEval>, usage: map<Path, Usage>, phase: nat, i: nat, j: nat) returns (a: nat, b: nat)
    requires OnHot(site, fills) && i < j < |AllPicks(site, fills, usage, phase)|
    ensures a < b < |fills|
    ensures AllPicks(site, fills, usage, phase)[i].item == fills[a].item && AllPicks(site, fills, usage, phase)[j].item == fills[b].item
    decreases |fills|
  {
    var dest := PickFor(site, usage, fills[0]);
    if dest.None? {
      a, b := PicksInOrder(site, fills[1..], usage, phase, i, j);
      a, b := a + 1, b + 1;
    } else {
      var held := Applied(site.layout.volumeOf, usage, dest.value.path, fills[0].item.size);
      if i == 0 {
        b := PickIsOf(site, fills[1..], held, phase, j - 1);
        a, b := 0, b + 1;
      } else {
        a, b := PicksInOrder(site, fills[1..], held, phase, i - 1, j - 1);
        a, b := a + 1, b + 1;
      }
    }
  }

  lemma {:induction false} PickIsOf(site: Site, fills: seq<ItemEval>, usage: map<Path, Usage>, phase: nat, k: nat) returns (a: nat)
    requires OnHot(site, fills) && k < |AllPicks(site, fills, usage, phase)|
    ensures a < |fills| && AllPicks(site, fills, usage, phase)[k].item == fills[a].item
    decreases |fills|
  {
    var dest := PickFor(site, usage, fills[0]);
    if dest.None? {
      a := PickIsOf(site, fills[1..], usage, phase, k);
      a := a + 1;
    } else if k == 0 {
      a := 0;
    } else {
      a := PickIsOf(site, fills[1..], Applied(site.layout.volumeOf, usage, dest.value.path, fills[0].item.size), phase, k - 1);
      a := a + 1;
    }
  }

  // ----- where a fill phase stops

  /** Picks made in turn until no fill is left with room. */
  ghost predicate EveryPick(layout: Layout, fills: seq<ItemEval>, usage: map<Path, Usage>, picks: seq<MoveEntry>) {
    && (forall k :: 0 <= k < |picks| ==> InTurn(layout, fills, usage, picks, k))
    && forall i :: 0 <= i < |fills| ==> PickedOrFull(layout, fills, usage, picks, i)
  }

  ghost predicate InTurn(layout: Layout, fills: seq<ItemEval>, usage: map<Path, Usage>, picks: seq<MoveEntry>, k: nat)
    requires k < |picks|
  {
    exists a: nat :: Turn(layout, fills, usage, picks, k, a)
  }

  ghost predicate PickedOrFull(layout: Layout, fills: seq<ItemEval>, usage: map<Path, Usage>, picks: seq<MoveEntry>, i: nat)
    requires i < |fills|
  {
    MovedBy(picks, fills[i].item) || NoColdRoom(layout.tiers, Reserved(layout.volumeOf, usage, picks), fills[i].item)
  }

  lemma {:induction false} PicksRunOut(site: Site, fills: seq<ItemEval>, usage: map<Path, Usage>, phase: nat, i: nat)
    requires OnHot(site, fills) && ValidTiers(site.layout.tiers) && i < |fills|
    ensures PickedOrFull(site.layout, fills, usage, AllPicks(site, fills, usage, phase), i)
    decreases |fills|
  {
    var dest := PickFor(site, usage, fills[0]);
    var picks := AllPicks(site, fills, usage, phase);
    if dest.None? {
      if i == 0 {
        NotPicked(site.layout.tiers, usage, fills[0].item);
        PicksNonNegative(site, fills, usage, phase);
        MoreHeld(site.layout.volumeOf, usage, picks);
        StillNoRoom(site.layout.tiers, usage, Reserved(site.layout.volumeOf, usage, picks), fills[0].item);
      } else {
        PicksRunOut(site, fills[1..], usage, phase, i - 1);
      }
    } else {
      var e := FillEntry(site, fills[0], dest.value, phase);
      var held := Applied(site.layout.volumeOf, usage, e.toPath, e.item.size);
      var rest := AllPicks(site, fills[1..], held, phase);
      assert picks == [e] + rest;
      if i == 0 {
        assert picks[0] == e;
      } else {
        PicksRunOut(site, fills[1..], held, phase, i - 1);
        HeldFirst(site.layout.volumeOf, usage, e, rest);
        if MovedBy(rest, fills[i].item) {
          MovedByMore(e, rest, fills[i].item);
        }
      }
    }
  }

  lemma {:induction false} AllPicksAreEvery(site: Site, fills: seq<ItemEval>, usage: map<Path, Usage>, phase: nat)
    requires OnHot(site, fills) && ValidTiers(site.layout.tiers)
    ensures EveryPick(site.layout, fills, usage, AllPicks(site, fills, usage, phase))
  {
    var picks := AllPicks(site, fills, usage, phase);
    forall k | 0 <= k < |picks|
      ensures InTurn(site.layout, fills, usage, picks, k)
    {
      var a := PicksInTurn(site, fills, usage, phase, k);
    }
    forall i | 0 <= i < |fills|
      ensures PickedOrFull(site.layout, fills, usage, picks, i)
    {
      PicksRunOut(site, fills, usage, phase, i);
    }
  }

  /** How many of the reclaims could be placed with the first n of the entries landed. */
  ghost function CouldGo(layout: Layout, s: Standing, entries: seq<MoveEntry>, n: nat): nat
    requires n <= |entries|
  {
    PlaceableCount(layout, s.reclaims, After(layout.volumeOf, s.usage, entries[..n]))
  }

  ghost function Lesser(a: nat, b: nat): nat {
    if a < b then a else b
  }

  /** A fill phase takes picks until as many reclaims could go as the goal asks for, or as every pick would let go;
      it takes all of them when that is none, and otherwise no more than it needs. */
  ghost predicate StopsAt(layout: Layout, m: Standing, all: seq<MoveEntry>, cold: seq<MoveEntry>) {
    var target := Lesser(m.goal, CouldGo(layout, m, all, |all|));
    && cold <= all && (target == 0 ==> cold == all)
    && (target > 0 ==> CouldGo(layout, m, cold, |cold|) >= target && forall n :: 0 < n < |cold| ==> CouldGo(layout, m, cold, n) < target)
  }

  lemma {:induction false} StopIsTimely(site: Site, m: Standing, all: seq<MoveEntry>, cold: seq<MoveEntry>)
    requires OnHot(site, m.fills) && all == AllPicks(site, m.fills, m.usage, m.phase)
    requires StopsInTime(site.layout, m.reclaims, m.usage, all, cold, TargetAt(site, m))
    ensures StopsAt(site.layout, m, all, cold)
  {
    assert all[..|all|] == all && cold[..|cold|] == cold;
    if m.reclaims == [] {
      NextIsMostConstrained(m.reclaims, 0, site.layout.tiers, After(site.layout.volumeOf, m.usage, all));
    }
    forall n | 0 < n < |cold|
      ensures TargetAt(site, m) > 0 ==> CouldGo(site.layout, m, cold, n) < TargetAt(site, m)
    {
      if TargetAt(site, m) > 0 {
        assert TooFewAt(site.layout, m.reclaims, m.usage, cold, n, TargetAt(site, m));
      }
    }
  }

  /** Every fill phase of a plan stops there. */
  lemma {:induction false} FillsStop(site: Site, r: Round) returns (all: seq<MoveEntry>)
    requires ValidTiers(site.layout.tiers) && RoundOk(site, r)
    ensures var m := Middle(site.layout, r);
            EveryPick(site.layout, m.fills, m.usage, all) && StopsAt(site.layout, m, all, r.cold)
  {
    var m := Middle(site.layout, r);
    all := AllPicks(site, m.fills, m.usage, m.phase);
    AllPicksAreEvery(site, m.fills, m.usage, m.phase);
    StopIsTimely(site, m, all, r.cold);
  }

  // ----- in a whole plan

  lemma {:induction false} TurnOfPrefix(layout: Layout, fills: seq<ItemEval>, usage: map<Path, Usage>, all: seq<MoveEntry>, picks: seq<MoveEntry>, k: nat, a: nat)
    requires k < |picks| && picks <= all && Turn(layout, fills, usage, all, k, a)
    ensures Turn(layout, fills, usage, picks, k, a)
  {
    assert all[..k] == picks[..k];
  }

  /** Every fill phase of a plan takes its fills in turn. */
  lemma {:induction false} FillsInTurn(site: Site, r: Round, k: nat) returns (a: nat)
    requires ValidTiers(site.layout.tiers) && RoundOk(site, r) && k < |r.cold|
    ensures var m := Middle(site.layout, r);
            Turn(site.layout, m.fills, m.usage, r.cold, k, a)
  {
    var m := Middle(site.layout, r);
    var all := AllPicks(site, m.fills, m.usage, m.phase);
    a := PicksInTurn(site, m.fills, m.usage, m.phase, k);
    TurnOfPrefix(site.layout, m.fills, m.usage, all, r.cold, k, a);
  }

  /** a is colder than b, or as cold and at least as large. */
  predicate NotWarmer(a: ItemEval, b: ItemEval) {
    a.score > b.score || (a.score == b.score && a.item.size >= b.item.size)
  }

  ghost predicate ColdestFirst(fills: seq<ItemEval>) {
    forall i, j :: 0 <= i < j < |fills| ==> NotWarmer(fills[i], fills[j])
  }

  lemma {:induction false} SortedColdestFirst(fills: seq<ItemEval>)
    requires SortedBy(fills, Colder)
    ensures ColdestFirst(fills)
  {
    forall i, j | 0 <= i < j < |fills|
      ensures NotWarmer(fills[i], fills[j])
    {
      assert !Colder(fills[j], fills[i]);
    }
  }

  lemma {:induction false} StillColdestFirst(layout: Layout, r: Round)
    requires ColdestFirst(r.start.fills)
    ensures ColdestFirst(Middle(layout, r).fills) && ColdestFirst(End(layout, r).fills)
    ensures forall c :: c in End(layout, r).fills ==> c in r.start.fills
  {
    var left := End(layout, r).fills;
    forall i, j | 0 <= i < j < |left|
      ensures NotWarmer(left[i], left[j])
    {
      var a, b := DroppingOrder(r.start.fills, AsSet(r.taken), i, j);
    }
    DroppingMembers(r.start.fills, AsSet(r.taken));
  }

  /** a and b are among the fills, their items are the entries', and a is not the warmer one. */
  ghost predicate InColdOrder(fills: seq<ItemEval>, x: MoveEntry, y: MoveEntry, a: ItemEval, b: ItemEval) {
    a in fills && b in fills && a.item == x.item && b.item == y.item && NotWarmer(a, b)
  }

  lemma {:induction false} RoundInColdOrder(site: Site, r: Round, i: nat, j: nat) returns (a: ItemEval, b: ItemEval)
    requires RoundOk(site, r) && ColdestFirst(r.start.fills) && i < j < |r.cold|
    ensures InColdOrder(r.start.fills, r.cold[i], r.cold[j], a, b)
  {
    var m := Middle(site.layout, r);
    var p, q := PicksInOrder(site, m.fills, m.usage, m.phase, i, j);
    a, b := m.fills[p], m.fills[q];
  }

  lemma {:induction false} HotOfRound(input: Input, site: Site, r: Round, k: nat)
    requires site.layout == input.layout && RoundOk(site, r) && k < |r.hot| && r.hot[k].toPath in input.usage
    ensures GoesTo(input, Hot, r.hot[k])
  {
    assert MovesToHot(r.hot[k], r.start.reclaims[r.placed[k]], site.layout);
    var s := HotGoesHot(r.hot[k], r.start.reclaims[r.placed[k]], site.layout);
  }

  lemma {:induction false} ThreeParts<T>(a: seq<T>, b: seq<T>, c: seq<T>, k: nat)
    requires k < |a + b + c|
    ensures (a + b + c)[k] == if k < |a| then a[k] else if k < |a| + |b| then b[k - |a|] else c[k - |a| - |b|]
  {
  }

  ghost predicate AllIn(entries: seq<MoveEntry>, usage: map<Path, Usage>) {
    forall k :: 0 <= k < |entries| ==> entries[k].toPath in usage
  }

  lemma {:induction false} AllInLater(a: seq<MoveEntry>, b: seq<MoveEntry>, c: seq<MoveEntry>, usage: map<Path, Usage>)
    requires AllIn(a + b + c, usage)
    ensures AllIn(a, usage) && AllIn(c, usage)
  {
    forall k | 0 <= k < |a|
      ensures a[k].toPath in usage
    {
      assert (a + b + c)[k] == a[k];
    }
    forall k | 0 <= k < |c|
      ensures c[k].toPath in usage
    {
      assert (a + b + c)[|a| + |b| + k] == c[k];
    }
  }

  /** Two entries of one phase that go to no hot path. */
  ghost predicate BothToCold(input: Input, x: MoveEntry, y: MoveEntry) {
    x.phase == y.phase && !GoesTo(input, Hot, x) && !GoesTo(input, Hot, y)
  }

  lemma {:induction false} NotOfHot(input: Input, site: Site, log: seq<Round>, i: nat)
    requires log != [] && site.layout == input.layout && RoundOk(site, log[0]) && AllIn(log[0].hot, input.usage)
    requires i < |EntriesOf(log)| && !GoesTo(input, Hot, EntriesOf(log)[i])
    ensures |log[0].hot| <= i
  {
    ThreeParts(log[0].hot, log[0].cold, EntriesOf(log[1..]), i);
    if i < |log[0].hot| {
      HotOfRound(input, site, log[0], i);
    }
  }

  lemma {:induction false} NotLater(site: Site, first: Standing, log: seq<Round>, end: Standing, i: nat, j: nat)
    requires WholeRun(site, first, log, end) && |log[0].hot| <= i < |log[0].hot| + |log[0].cold|
    requires i < j < |EntriesOf(log)| && EntriesOf(log)[i].phase == EntriesOf(log)[j].phase
    ensures j < |log[0].hot| + |log[0].cold|
  {
    if j >= |log[0].hot| + |log[0].cold| {
      var p := CutAt(log, i);
      var q := LaterAt(log, j);
      ColdEndsPhase(site, first, log, end, p, q);
    }
  }

  lemma {:induction false} CutAt(log: seq<Round>, k: nat) returns (p: nat)
    requires log != [] && |log[0].hot| <= k < |log[0].hot| + |log[0].cold|
    ensures p == k - |log[0].hot| && p < |log[0].cold|
    ensures k < |EntriesOf(log)| && EntriesOf(log)[k] == log[0].cold[p]
  {
    ThreeParts(log[0].hot, log[0].cold, EntriesOf(log[1..]), k);
    p := k - |log[0].hot|;
  }

  lemma {:induction false} LaterAt(log: seq<Round>, k: nat) returns (p: nat)
    requires log != [] && |log[0].hot| + |log[0].cold| <= k < |EntriesOf(log)|
    ensures p == k - |log[0].hot| - |log[0].cold| && p < |EntriesOf(log[1..])|
    ensures EntriesOf(log)[k] == EntriesOf(log[1..])[p]
  {
    ThreeParts(log[0].hot, log[0].cold, EntriesOf(log[1..]), k);
    p := k - |log[0].hot| - |log[0].cold|;
  }

  lemma {:induction false} FirstRoundInColdOrder(site: Site, fills: seq<ItemEval>, log: seq<Round>, i: nat, j: nat) returns (a: ItemEval, b: ItemEval)
    requires log != [] && RoundOk(site, log[0]) && log[0].start.fills == fills && ColdestFirst(fills)
    requires |log[0].hot| <= i < j < |log[0].hot| + |log[0].cold| <= |EntriesOf(log)|
    ensures InColdOrder(fills, EntriesOf(log)[i], EntriesOf(log)[j], a, b)
  {
    var p := CutAt(log, i);
    var q := CutAt(log, j);
    a, b := RoundInColdOrder(site, log[0], p, q);
  }

  lemma {:induction false} RunInColdOrder(input: Input, site: Site, first: Standing, log: seq<Round>, end: Standing, i: nat, j: nat) returns (a: ItemEval, b: ItemEval)
    requires site.layout == input.layout && WholeRun(site, first, log, end) && ColdestFirst(first.fills) && AllIn(EntriesOf(log), input.usage)
    requires i < j < |EntriesOf(log)| && BothToCold(input, EntriesOf(log)[i], EntriesOf(log)[j])
    ensures InColdOrder(first.fills, EntriesOf(log)[i], EntriesOf(log)[j], a, b)
    decreases |log|
  {
    var r := log[0];
    AllInLater(r.hot, r.cold, EntriesOf(log[1..]), input.usage);
    if i < |r.hot| + |r.cold| {
      NotOfHot(input, site, log, i);
      NotLater(site, first, log, end, i, j);
      a, b := FirstRoundInColdOrder(site, first.fills, log, i, j);
    } else {
      var p := LaterAt(log, i);
      var q := LaterAt(log, j);
      RunBegins(site, first, log, end);
      LaterRounds(log);
      StillColdestFirst(site.layout, r);
      a, b := RunInColdOrder(input, site, End(site.layout, r), log[1..], end, p, q);
    }
  }

  lemma {:induction false} LaterRounds(log: seq<Round>)
    requires log != [] && EntriesOf(log[1..]) != []
    ensures |log| > 1
  {
    assert log[1..] != [];
  }

  /** No later entry is of a fill phase's number. */
  lemma {:induction false} ColdEndsPhase(site: Site, first: Standing, log: seq<Round>, end: Standing, i: nat, j: nat)
    requires WholeRun(site, first, log, end) && i < |log[0].cold| && j < |EntriesOf(log[1..])|
    ensures log[0].cold[i].phase < EntriesOf(log[1..])[j].phase
  {
    LaterRounds(log);
    PhasesFrom(site, End(site.layout, log[0]), log[1..], end);
  }

  /** The entries that take fills to cold paths in one phase go coldest first, and largest first among equals. */
  lemma {:induction false} FillsColdestFirst(input: Input, plan: Plan, i: nat, j: nat) returns (a: ItemEval, b: ItemEval)
    requires ValidTiers(input.layout.tiers) && Built(input, plan) && i < j < |plan.entries|
    requires plan.entries[i].phase == plan.entries[j].phase && GoesTo(input, Cold, plan.entries[i]) && GoesTo(input, Cold, plan.entries[j])
    ensures a in input.items && b in input.items && a.item == plan.entries[i].item && b.item == plan.entries[j].item && NotWarmer(a, b)
  {
    var site, reclaims, fills := BuiltFrom(input, plan);
    NotToHot(input, plan.entries[i]);
    NotToHot(input, plan.entries[j]);
    a, b := FirstFills(input, site, reclaims, fills, plan, i, j);
    FillsExactly(input, site, reclaims, fills, a);
    FillsExactly(input, site, reclaims, fills, b);
  }

  lemma {:induction false} NotToHot(input: Input, e: MoveEntry)
    requires ValidTiers(input.layout.tiers) && GoesTo(input, Cold, e)
    ensures !GoesTo(input, Hot, e)
  {
    if GoesTo(input, Hot, e) {
      OneRole(input, e.toPath);
    }
  }

  lemma {:induction false} FirstFills(input: Input, site: Site, reclaims: seq<Reclaim>, fills: seq<ItemEval>, plan: Plan, i: nat, j: nat) returns (a: ItemEval, b: ItemEval)
    requires CandidatesOf(input, site, reclaims, fills) && InRounds(input, site, reclaims, fills, plan)
    requires Sound(input.layout.volumeOf, input.usage, plan.entries)
    requires i < j < |plan.entries| && BothToCold(input, plan.entries[i], plan.entries[j])
    ensures InColdOrder(fills, plan.entries[i], plan.entries[j], a, b)
  {
    var log: seq<Round>, end: Standing :| LogOf(input, site, reclaims, fills, plan, log, end);
    SortedColdestFirst(fills);
    AllLandOnUsable(input, plan);
    a, b := RunInColdOrder(input, site, FirstStanding(input, reclaims, fills), log, end, i, j);
  }

  lemma {:induction false} AllLandOnUsable(input: Input, plan: Plan)
    requires Sound(input.layout.volumeOf, input.usage, plan.entries)
    ensures AllIn(plan.entries, input.usage)
  {
    forall k | 0 <= k < |plan.entries|
      ensures plan.entries[k].toPath in input.usage
    {
      LandsOnUsable(input, plan, k);
    }
  }
}
