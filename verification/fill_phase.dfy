/** One fill phase: attemptFills and its look-ahead (internal/planner). */
module FillPhase {
  import opened DiskUsage
  import opened PlannerModel
  import opened Destinations
  import opened Reclaims
  import opened ReclaimPhase

  /** What both look-ahead and placing read: the layout, and the hot tier each hot path belongs to. */
  datatype Site = Site(layout: Layout, hotPaths: map<Path, Tier>)

  ghost predicate OnHot(site: Site, fills: seq<ItemEval>) {
    forall k :: 0 <= k < |fills| ==> fills[k].item.root in site.hotPaths
  }

  /** The move planned for a fill. */
  function FillEntry(site: Site, c: ItemEval, dest: Slot, phase: nat): MoveEntry
    requires c.item.root in site.hotPaths
  {
    var from := site.hotPaths[c.item.root];
    MoveEntry(c.item, from.name, from.role, c.item.root, dest.tier.name, dest.path, phase, dest.tier.EffectiveMax())
  }

  function PickFor(site: Site, capacity: map<Path, Usage>, c: ItemEval): Option<Slot> {
    Pick(site.layout.tiers, capacity, c.item.mediaType, c.item.size)
  }

  /** Every fill the phase could place, were it never stopped: each pick holds room for the next. */
  function AllPicks(site: Site, pending: seq<ItemEval>, capacity: map<Path, Usage>, phase: nat): seq<MoveEntry>
    requires OnHot(site, pending)
  {
    if pending == [] then []
    else
      var dest := PickFor(site, capacity, pending[0]);
      if dest.None? then AllPicks(site, pending[1..], capacity, phase)
      else
        [FillEntry(site, pending[0], dest.value, phase)]
        + AllPicks(site, pending[1..], Applied(site.layout.volumeOf, capacity, dest.value.path, pending[0].item.size), phase)
  }

  /** How many reclaims the phase aims to make room for: what all the fills together would make
      room for, at most the current goal. */
  function BatchTarget(site: Site, fills: seq<ItemEval>, reclaims: seq<Reclaim>, goal: nat, usage: map<Path, Usage>, phase: nat): nat
    requires OnHot(site, fills)
  {
    if reclaims == [] then 0
    else
      var possible := PlaceableCount(site.layout, reclaims, After(site.layout.volumeOf, usage, AllPicks(site, fills, usage, phase)));
      if possible > goal then goal else possible
  }

  lemma {:induction false} PicksStep(site: Site, pending: seq<ItemEval>, i: nat, capacity: map<Path, Usage>, phase: nat)
    requires OnHot(site, pending) && i < |pending|
    ensures PickFor(site, capacity, pending[i]).None? ==>
              AllPicks(site, pending[i..], capacity, phase) == AllPicks(site, pending[i + 1..], capacity, phase)
    ensures PickFor(site, capacity, pending[i]).Some? ==>
              var s := PickFor(site, capacity, pending[i]).value;
              var held := Applied(site.layout.volumeOf, capacity, s.path, pending[i].item.size);
              AllPicks(site, pending[i..], capacity, phase) == [FillEntry(site, pending[i], s, phase)] + AllPicks(site, pending[i + 1..], held, phase)
  {
    assert pending[i..][0] == pending[i] && pending[i..][1..] == pending[i + 1..];
  }

  /** Holds room for a fill in capacity, and counts the whole move in table. */
  method PlaceFill(volumes: Volumes, ghost volumeOf: map<Path, nat>, e: MoveEntry, capacity: UsageTable, table: UsageTable)
    requires IsGrouping(volumes, volumeOf) && capacity != table
    modifies capacity, table
    ensures capacity.usage == Applied(volumeOf, old(capacity.usage), e.toPath, e.item.size)
    ensures table.usage == Landed(volumeOf, old(table.usage), e)
  {
    capacity.Apply(volumes, volumeOf, e.toPath, e.item.size);
    CountMove(volumes, volumeOf, table, e);
  }

  /** The look-ahead simulation: the picks attemptFills would make, and what they would free. */
  method ReclaimBatchTarget(site: Site, volumes: Volumes, fills: seq<ItemEval>, reclaims: seq<Reclaim>, goal: nat, usage: map<Path, Usage>,
                            phase: nat) returns (target: nat)
    requires IsGrouping(volumes, site.layout.volumeOf) && OnHot(site, fills)
    ensures target == BatchTarget(site, fills, reclaims, goal, usage, phase)
  {
    if |reclaims| == 0 {
      return 0;
    }
    var capacity := new UsageTable.Copy(usage);
    var projected := new UsageTable.Copy(usage);
    ghost var done: seq<MoveEntry> := [];
    for i := 0 to |fills|
      invariant done + AllPicks(site, fills[i..], capacity.usage, phase) == AllPicks(site, fills, usage, phase)
      invariant projected.usage == After(site.layout.volumeOf, usage, done)
    {
      PicksStep(site, fills, i, capacity.usage, phase);
      var dest := PickDestination(site.layout.tiers, capacity.usage, fills[i].item.mediaType, fills[i].item.size);
      if dest.Some? {
        var e := FillEntry(site, fills[i], dest.value, phase);
        AfterAppend(site.layout.volumeOf, usage, done, e);
        done := done + [e];
        PlaceFill(volumes, site.layout.volumeOf, e, capacity, projected);
      }
    }
    assert done == AllPicks(site, fills, usage, phase);
    var possible := PlaceableReclaimCount(site.layout, volumes, reclaims, projected.usage);
    target := if possible > goal then goal else possible;
  }

  /** How far attemptFills has got after looking at the first i pending fills: which it took ... */
  ghost predicate Taken(site: Site, pending: seq<ItemEval>, i: nat, entries: seq<MoveEntry>, still: seq<ItemEval>, placed: seq<nat>)
    requires OnHot(site, pending)
  {
    && i <= |pending|
    && |placed| == |entries| && Selects(pending[..i], placed)
    && still == Dropping(pending[..i], AsSet(placed))
    && forall k :: 0 <= k < |entries| ==> MovesToCold(entries[k], pending[placed[k]], site)
  }

  /** ... and what room it holds for them. */
  ghost predicate Holding(site: Site, pending: seq<ItemEval>, start: map<Path, Usage>, phase: nat, i: nat, entries: seq<MoveEntry>, capacity: map<Path, Usage>)
    requires OnHot(site, pending)
  {
    && i <= |pending|
    && OnePhase(site.layout.volumeOf, start, entries, phase)
    && capacity == Reserved(site.layout.volumeOf, start, entries)
    && entries + AllPicks(site, pending[i..], capacity, phase) == AllPicks(site, pending, start, phase)
  }

  /** A move of c to a cold path that may hold it, under that path's ceiling. */
  ghost predicate MovesToCold(e: MoveEntry, c: ItemEval, site: Site)
    requires c.item.root in site.hotPaths
  {
    exists s :: s in Slots(site.layout.tiers) && s.tier.role == Cold && s.tier.Accepts(c.item.mediaType) && e == FillEntry(site, c, s, e.phase)
  }

  lemma {:induction false} Skip(site: Site, pending: seq<ItemEval>, i: nat, entries: seq<MoveEntry>, still: seq<ItemEval>, placed: seq<nat>)
    requires OnHot(site, pending) && i < |pending| && Taken(site, pending, i, entries, still, placed)
    ensures Taken(site, pending, i + 1, entries, still + [pending[i]], placed)
  {
    assert pending[..i + 1][..i] == pending[..i];
    assert i !in placed;
  }

  lemma {:induction false} Take(site: Site, pending: seq<ItemEval>, i: nat, entries: seq<MoveEntry>, still: seq<ItemEval>, placed: seq<nat>, e: MoveEntry)
    requires OnHot(site, pending) && i < |pending| && Taken(site, pending, i, entries, still, placed)
    requires MovesToCold(e, pending[i], site)
    ensures Taken(site, pending, i + 1, entries + [e], still, placed + [i])
  {
    TakeIndex(pending, i, placed);
    forall k | 0 <= k < |entries| + 1
      ensures MovesToCold((entries + [e])[k], pending[(placed + [i])[k]], site)
    {
      if k < |entries| {
        assert MovesToCold(entries[k], pending[placed[k]], site);
      }
    }
  }

  lemma {:induction false} HoldSkip(site: Site, pending: seq<ItemEval>, start: map<Path, Usage>, phase: nat, i: nat, entries: seq<MoveEntry>, capacity: map<Path, Usage>)
    requires OnHot(site, pending) && i < |pending| && Holding(site, pending, start, phase, i, entries, capacity)
    requires PickFor(site, capacity, pending[i]).None?
    ensures Holding(site, pending, start, phase, i + 1, entries, capacity)
  {
    PicksStep(site, pending, i, capacity, phase);
  }

  lemma {:induction false} PicksTake(site: Site, pending: seq<ItemEval>, phase: nat, i: nat, capacity: map<Path, Usage>, e: MoveEntry, entries: seq<MoveEntry>, all: seq<MoveEntry>)
    requires OnHot(site, pending) && i < |pending|
    requires PickFor(site, capacity, pending[i]).Some? && e == FillEntry(site, pending[i], PickFor(site, capacity, pending[i]).value, phase)
    requires entries + AllPicks(site, pending[i..], capacity, phase) == all
    ensures entries + [e] + AllPicks(site, pending[i + 1..], Applied(site.layout.volumeOf, capacity, e.toPath, e.item.size), phase) == all
  {
    PicksStep(site, pending, i, capacity, phase);
    var rest := AllPicks(site, pending[i + 1..], Applied(site.layout.volumeOf, capacity, e.toPath, e.item.size), phase);
    assert entries + [e] + rest == entries + ([e] + rest);
  }

  lemma {:induction false} HoldTake(site: Site, pending: seq<ItemEval>, start: map<Path, Usage>, phase: nat, i: nat, entries: seq<MoveEntry>, capacity: map<Path, Usage>, e: MoveEntry)
    requires OnHot(site, pending) && i < |pending| && Holding(site, pending, start, phase, i, entries, capacity)
    requires PickFor(site, capacity, pending[i]).Some? && e == FillEntry(site, pending[i], PickFor(site, capacity, pending[i]).value, phase)
    requires Admits(capacity, e)
    ensures Holding(site, pending, start, phase, i + 1, entries + [e], Applied(site.layout.volumeOf, capacity, e.toPath, e.item.size))
  {
    PicksTake(site, pending, phase, i, capacity, e, entries, AllPicks(site, pending, start, phase));
    OnePhaseAppend(site.layout.volumeOf, start, entries, e, phase);
  }

  lemma {:induction false} PickAdmits(site: Site, c: ItemEval, capacity: map<Path, Usage>, phase: nat)
    requires c.item.root in site.hotPaths && ValidTiers(site.layout.tiers)
    requires PickFor(site, capacity, c).Some?
    ensures var e := FillEntry(site, c, PickFor(site, capacity, c).value, phase);
            Admits(capacity, e) && MovesToCold(e, c, site)
  {
    PickFindsRoom(site.layout.tiers, capacity, c.item.mediaType, c.item.size);
  }

  lemma {:induction false} OnePhaseAppend(volumeOf: map<Path, nat>, start: map<Path, Usage>, entries: seq<MoveEntry>, e: MoveEntry, phase: nat)
    requires OnePhase(volumeOf, start, entries, phase)
    requires e.phase == phase && Admits(Reserved(volumeOf, start, entries), e)
    ensures OnePhase(volumeOf, start, entries + [e], phase)
    ensures Reserved(volumeOf, start, entries + [e]) == Applied(volumeOf, Reserved(volumeOf, start, entries), e.toPath, e.item.size)
  {
    var es := entries + [e];
    assert es[..|entries|] == entries;
    forall k | 0 <= k < |entries|
      ensures es[k].phase == phase && Admits(Reserved(volumeOf, start, es[..k]), es[k])
    {
      assert es[..k] == entries[..k] && es[k] == entries[k];
    }
  }

  lemma {:induction false} TakeIndex<T>(pending: seq<T>, i: nat, placed: seq<nat>)
    requires i < |pending| && Selects(pending[..i], placed)
    ensures Selects(pending[..i + 1], placed + [i])
    ensures Dropping(pending[..i + 1], AsSet(placed + [i])) == Dropping(pending[..i], AsSet(placed))
  {
    assert pending[..i + 1][..i] == pending[..i];
    assert AsSet(placed + [i]) == AsSet(placed) + {i};
    DroppingBeyond(pending[..i], AsSet(placed), i);
  }

  lemma {:induction false} DroppingTail<T>(s: seq<T>, i: nat, gone: set<nat>)
    requires i <= |s| && forall k :: k in gone ==> k < i
    ensures Dropping(s, gone) == Dropping(s[..i], gone) + s[i..]
    decreases |s|
  {
    if i == |s| {
      assert s[..i] == s;
    } else {
      var n := |s| - 1;
      DroppingTail(s[..n], i, gone);
      assert s[..n][..i] == s[..i];
      assert s[..n][i..] + [s[n]] == s[i..];
    }
  }

  /** Considers pending fill i: the body of attemptFills' loop, up to the check that stops it. */
  method TryFill(site: Site, volumes: Volumes, pending: seq<ItemEval>, i: nat, capacity: UsageTable, working: UsageTable, phase: nat,
                 ghost start: map<Path, Usage>, before: seq<MoveEntry>, still: seq<ItemEval>, ghost placed: seq<nat>)
    returns (entries: seq<MoveEntry>, stillPending: seq<ItemEval>, ghost placed': seq<nat>, took: bool)
    requires IsGrouping(volumes, site.layout.volumeOf) && OnHot(site, pending) && ValidTiers(site.layout.tiers) && capacity != working
    requires i < |pending| && Taken(site, pending, i, before, still, placed)
    requires Holding(site, pending, start, phase, i, before, capacity.usage)
    requires working.usage == After(site.layout.volumeOf, start, before)
    modifies capacity, working
    ensures Taken(site, pending, i + 1, entries, stillPending, placed')
    ensures Holding(site, pending, start, phase, i + 1, entries, capacity.usage)
    ensures working.usage == After(site.layout.volumeOf, start, entries)
    ensures if took then |entries| == |before| + 1 && entries[..|before|] == before else entries == before
  {
    var c := pending[i];
    var dest := PickDestination(site.layout.tiers, capacity.usage, c.item.mediaType, c.item.size);
    if dest.None? {
      HoldSkip(site, pending, start, phase, i, before, capacity.usage);
      Skip(site, pending, i, before, still, placed);
      return before, still + [c], placed, false;
    }
    var e := FillEntry(site, c, dest.value, phase);
    PickAdmits(site, c, capacity.usage, phase);
    HoldTake(site, pending, start, phase, i, before, capacity.usage, e);
    Take(site, pending, i, before, still, placed, e);
    AfterAppend(site.layout.volumeOf, start, before, e);
    PlaceFill(volumes, site.layout.volumeOf, e, capacity, working);
    return before + [e], still, placed + [i], true;
  }

  /** Where a fill phase aiming at target reclaims may stop: with every fill placed that can be, when
      it aims at none; else with room for target of them, and not one fill later than that took. */
  ghost predicate StopsInTime(layout: Layout, reclaims: seq<Reclaim>, start: map<Path, Usage>, all: seq<MoveEntry>, entries: seq<MoveEntry>, target: nat) {
    && entries <= all
    && (target == 0 || entries == [] ==> entries == all)
    && (target > 0 && entries != [] ==> PlaceableCount(layout, reclaims, After(layout.volumeOf, start, entries)) >= target)
    && (target > 0 ==> TooFew(layout, reclaims, start, entries, |entries|, target))
  }

  /** attemptFills' loop: fill after fill, until one leaves room for target reclaims. */
  method FillUntil(site: Site, volumes: Volumes, pending: seq<ItemEval>, reclaims: seq<Reclaim>, target: nat, capacity: UsageTable, working: UsageTable, phase: nat)
    returns (i: nat, entries: seq<MoveEntry>, still: seq<ItemEval>, ghost placed: seq<nat>)
    requires IsGrouping(volumes, site.layout.volumeOf) && OnHot(site, pending) && ValidTiers(site.layout.tiers)
    requires capacity != working && capacity.usage == working.usage
    modifies capacity, working
    ensures Taken(site, pending, i, entries, still, placed)
    ensures Holding(site, pending, old(working.usage), phase, i, entries, capacity.usage)
    ensures working.usage == After(site.layout.volumeOf, old(working.usage), entries)
    ensures target > 0 ==> TooFew(site.layout, reclaims, old(working.usage), entries, |entries|, target)
    ensures i < |pending| ==> target > 0 && entries != [] && PlaceableCount(site.layout, reclaims, working.usage) >= target
  {
    ghost var start := working.usage;
    entries, still, placed, i := [], [], [], 0;
    while i < |pending|
      invariant Taken(site, pending, i, entries, still, placed)
      invariant Holding(site, pending, start, phase, i, entries, capacity.usage)
      invariant working.usage == After(site.layout.volumeOf, start, entries)
      invariant target > 0 ==> TooFew(site.layout, reclaims, start, entries, |entries| + 1, target)
    {
      ghost var before := entries;
      var took;
      entries, still, placed, took := TryFill(site, volumes, pending, i, capacity, working, phase, start, entries, still, placed);
      i := i + 1;
      if took && target > 0 {
        TooFewAppend(site.layout, reclaims, start, before, entries, target);
        var count := PlaceableReclaimCount(site.layout, volumes, reclaims, working.usage);
        if count >= target {
          break;
        }
        TooFewHere(site.layout, reclaims, start, entries, target);
      }
    }
  }

  /** Places fills until they run out, or until the finished phase has room for the reclaim batch it
      aims at - which it then does have, and no sooner than its last fill. */
  method AttemptFills(site: Site, volumes: Volumes, pending: seq<ItemEval>, reclaims: seq<Reclaim>, goal: nat, working: UsageTable, phase: nat)
    returns (entries: seq<MoveEntry>, stillPending: seq<ItemEval>, progressed: bool, ghost placed: seq<nat>)
    requires IsGrouping(volumes, site.layout.volumeOf) && OnHot(site, pending) && ValidTiers(site.layout.tiers)
    modifies working
    ensures working.usage == After(site.layout.volumeOf, old(working.usage), entries)
    ensures OnePhase(site.layout.volumeOf, old(working.usage), entries, phase)
    ensures progressed <==> entries != []
    ensures Selects(pending, placed) && |entries| == |placed|
    ensures forall k :: 0 <= k < |entries| ==> MovesToCold(entries[k], pending[placed[k]], site)
    ensures stillPending == Dropping(pending, AsSet(placed))
    ensures StopsInTime(site.layout, reclaims, old(working.usage), AllPicks(site, pending, old(working.usage), phase), entries,
                        BatchTarget(site, pending, reclaims, goal, old(working.usage), phase))
  {
    ghost var start := working.usage;
    var target := ReclaimBatchTarget(site, volumes, pending, reclaims, goal, working.usage, phase);
    var capacity := new UsageTable.Copy(working.usage);
    var i;
    i, entries, stillPending, placed := FillUntil(site, volumes, pending, reclaims, target, capacity, working, phase);
    StoppedWithRest(site, pending, i, entries, stillPending, placed);
    StoppedInTime(site, pending, reclaims, goal, start, phase, i, entries, capacity.usage);
    stillPending := stillPending + pending[i..];
    progressed := entries != [];
  }

  /** No nonempty list of the entries shorter than bound makes room for target reclaims. */
  ghost predicate TooFew(layout: Layout, reclaims: seq<Reclaim>, start: map<Path, Usage>, entries: seq<MoveEntry>, bound: nat, target: nat) {
    forall n :: 0 < n <= |entries| && n < bound ==> TooFewAt(layout, reclaims, start, entries, n, target)
  }

  ghost predicate TooFewAt(layout: Layout, reclaims: seq<Reclaim>, start: map<Path, Usage>, entries: seq<MoveEntry>, n: nat, target: nat)
    requires n <= |entries|
  {
    PlaceableCount(layout, reclaims, After(layout.volumeOf, start, entries[..n])) < target
  }

  lemma {:induction false} StoppedWithRest(site: Site, pending: seq<ItemEval>, i: nat, entries: seq<MoveEntry>, still: seq<ItemEval>, placed: seq<nat>)
    requires OnHot(site, pending) && Taken(site, pending, i, entries, still, placed)
    ensures still + pending[i..] == Dropping(pending, AsSet(placed))
    ensures Selects(pending, placed) && |entries| == |placed|
    ensures forall k :: 0 <= k < |entries| ==> MovesToCold(entries[k], pending[placed[k]], site)
  {
    DroppingTail(pending, i, AsSet(placed));
  }

  lemma {:induction false} StoppedInTime(site: Site, pending: seq<ItemEval>, reclaims: seq<Reclaim>, goal: nat, start: map<Path, Usage>, phase: nat,
                                         i: nat, entries: seq<MoveEntry>, capacity: map<Path, Usage>)
    requires OnHot(site, pending) && Holding(site, pending, start, phase, i, entries, capacity)
    requires var target := BatchTarget(site, pending, reclaims, goal, start, phase);
             target > 0 ==> TooFew(site.layout, reclaims, start, entries, |entries|, target)
    requires var target := BatchTarget(site, pending, reclaims, goal, start, phase);
             if i < |pending| then target > 0 && entries != [] && PlaceableCount(site.layout, reclaims, After(site.layout.volumeOf, start, entries)) >= target
             else true
    ensures StopsInTime(site.layout, reclaims, start, AllPicks(site, pending, start, phase), entries, BatchTarget(site, pending, reclaims, goal, start, phase))
  {
    var all := AllPicks(site, pending, start, phase);
    PicksReachTarget(site, pending, reclaims, goal, start, phase);
    if i == |pending| {
      assert entries + [] == entries;
      StopsAtEnd(site.layout, reclaims, start, entries, BatchTarget(site, pending, reclaims, goal, start, phase));
    } else {
      assert entries <= all;
    }
  }

  /** Every pick there is makes room for the target. */
  lemma {:induction false} PicksReachTarget(site: Site, pending: seq<ItemEval>, reclaims: seq<Reclaim>, goal: nat, start: map<Path, Usage>, phase: nat)
    requires OnHot(site, pending)
    ensures BatchTarget(site, pending, reclaims, goal, start, phase) > 0 ==>
              PlaceableCount(site.layout, reclaims, After(site.layout.volumeOf, start, AllPicks(site, pending, start, phase)))
              >= BatchTarget(site, pending, reclaims, goal, start, phase)
  {
  }

  lemma {:induction false} StopsAtEnd(layout: Layout, reclaims: seq<Reclaim>, start: map<Path, Usage>, all: seq<MoveEntry>, target: nat)
    requires target > 0 ==> PlaceableCount(layout, reclaims, After(layout.volumeOf, start, all)) >= target && TooFew(layout, reclaims, start, all, |all|, target)
    ensures StopsInTime(layout, reclaims, start, all, all, target)
  {
  }

  lemma {:induction false} TooFewKept(layout: Layout, reclaims: seq<Reclaim>, start: map<Path, Usage>, before: seq<MoveEntry>, entries: seq<MoveEntry>, n: nat, target: nat)
    requires n <= |before| <= |entries| && entries[..|before|] == before && TooFewAt(layout, reclaims, start, before, n, target)
    ensures TooFewAt(layout, reclaims, start, entries, n, target)
  {
    assert entries[..n] == before[..n];
  }

  lemma {:induction false} TooFewAppend(layout: Layout, reclaims: seq<Reclaim>, start: map<Path, Usage>, before: seq<MoveEntry>, entries: seq<MoveEntry>, target: nat)
    requires TooFew(layout, reclaims, start, before, |before| + 1, target)
    requires |entries| == |before| + 1 && entries[..|before|] == before
    ensures TooFew(layout, reclaims, start, entries, |entries|, target)
  {
    forall n | 0 < n <= |before|
      ensures TooFewAt(layout, reclaims, start, entries, n, target)
    {
      TooFewKept(layout, reclaims, start, before, entries, n, target);
    }
  }

  lemma {:induction false} TooFewHere(layout: Layout, reclaims: seq<Reclaim>, start: map<Path, Usage>, entries: seq<MoveEntry>, target: nat)
    requires TooFew(layout, reclaims, start, entries, |entries|, target) && PlaceableCount(layout, reclaims, After(layout.volumeOf, start, entries)) < target
    ensures TooFew(layout, reclaims, start, entries, |entries| + 1, target)
  {
    assert entries[..|entries|] == entries;
  }
}
