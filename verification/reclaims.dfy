/** Placing reclaims on hot storage: the greedy seed and the bounded branch and bound that repairs
    its packing mistakes (internal/planner). */
module Reclaims {
  import opened DiskUsage
  import opened PlannerModel
  import opened Destinations

  datatype Placement = Placement(candidate: nat, dest: Slot)

  predicate CanGo(layout: Layout, pending: seq<Reclaim>, usage: map<Path, Usage>, p: Placement) {
    && p.candidate < |pending| && p.dest in Slots(layout.tiers)
    && HotViable(p.dest, usage, pending[p.candidate].Media(), pending[p.candidate].Size())
  }

  /** The usage with room held for one placement on its destination's volume. */
  function Hold(layout: Layout, pending: seq<Reclaim>, usage: map<Path, Usage>, p: Placement): map<Path, Usage> {
    if p.candidate < |pending| then Applied(layout.volumeOf, usage, p.dest.path, pending[p.candidate].Size()) else usage
  }

  function HoldPlacements(layout: Layout, pending: seq<Reclaim>, usage: map<Path, Usage>, ps: seq<Placement>): map<Path, Usage> {
    if ps == [] then usage else HoldPlacements(layout, pending, Hold(layout, pending, usage, ps[0]), ps[1..])
  }

  /** Every placement, taken in turn, fits on what the earlier ones left. */
  ghost predicate Feasible(layout: Layout, pending: seq<Reclaim>, usage: map<Path, Usage>, ps: seq<Placement>) {
    ps == [] || (CanGo(layout, pending, usage, ps[0]) && Feasible(layout, pending, Hold(layout, pending, usage, ps[0]), ps[1..]))
  }

  ghost predicate Distinct(ps: seq<Placement>) {
    forall i, j :: 0 <= i < j < |ps| ==> ps[i].candidate != ps[j].candidate
  }

  lemma {:induction false} FeasibleAppend(layout: Layout, pending: seq<Reclaim>, usage: map<Path, Usage>, ps: seq<Placement>, p: Placement)
    requires Feasible(layout, pending, usage, ps)
    requires CanGo(layout, pending, HoldPlacements(layout, pending, usage, ps), p)
    ensures Feasible(layout, pending, usage, ps + [p])
    ensures HoldPlacements(layout, pending, usage, ps + [p]) == Hold(layout, pending, HoldPlacements(layout, pending, usage, ps), p)
  {
    if ps == [] {
      assert ps + [p] == [p];
    } else {
      assert (ps + [p])[1..] == ps[1..] + [p];
      FeasibleAppend(layout, pending, Hold(layout, pending, usage, ps[0]), ps[1..], p);
    }
  }

  // ----- the greedy seed

  function Without<T>(s: seq<T>, i: nat): seq<T>
    requires i < |s|
  {
    s[..i] + s[i + 1..]
  }

  /** Placing the most constrained reclaim again and again until none has a hot path left. indices
      names each remaining reclaim by its place in the full list. */
  function Greedy(layout: Layout, remaining: seq<Reclaim>, indices: seq<nat>, usage: map<Path, Usage>): seq<Placement>
    requires |remaining| == |indices|
    decreases |remaining|
  {
    var next := Next(remaining, layout.tiers, usage);
    if next.None? then []
    else
      NextFits(remaining, layout.tiers, usage);
      var c := next.value;
      [Placement(indices[c.index], c.dest)]
      + Greedy(layout, Without(remaining, c.index), Without(indices, c.index),
               Applied(layout.volumeOf, usage, c.dest.path, remaining[c.index].Size()))
  }

  /** How many reclaims that places. */
  function PlaceableCount(layout: Layout, remaining: seq<Reclaim>, usage: map<Path, Usage>): nat
    decreases |remaining|
  {
    var next := Next(remaining, layout.tiers, usage);
    if next.None? then 0
    else
      NextFits(remaining, layout.tiers, usage);
      var c := next.value;
      1 + PlaceableCount(layout, Without(remaining, c.index), Applied(layout.volumeOf, usage, c.dest.path, remaining[c.index].Size()))
  }

  /** Counting what could be placed and placing it agree. */
  lemma {:induction false} GreedyCount(layout: Layout, remaining: seq<Reclaim>, indices: seq<nat>, usage: map<Path, Usage>)
    requires |remaining| == |indices|
    ensures |Greedy(layout, remaining, indices, usage)| == PlaceableCount(layout, remaining, usage)
    decreases |remaining|
  {
    var next := Next(remaining, layout.tiers, usage);
    if next.Some? {
      NextFits(remaining, layout.tiers, usage);
      var c := next.value;
      GreedyCount(layout, Without(remaining, c.index), Without(indices, c.index),
                  Applied(layout.volumeOf, usage, c.dest.path, remaining[c.index].Size()));
    }
  }

  ghost predicate Names(pending: seq<Reclaim>, remaining: seq<Reclaim>, indices: seq<nat>) {
    && |remaining| == |indices| && NoRepeats(indices)
    && forall i :: 0 <= i < |indices| ==> indices[i] < |pending| && remaining[i] == pending[indices[i]]
  }

  lemma {:induction false} NamesWithout(pending: seq<Reclaim>, remaining: seq<Reclaim>, indices: seq<nat>, i: nat)
    requires Names(pending, remaining, indices) && i < |indices|
    ensures Names(pending, Without(remaining, i), Without(indices, i))
    ensures forall x :: x in Without(indices, i) ==> x in indices && x != indices[i]
  {
    var rest := Without(indices, i);
    assert forall k :: 0 <= k < |rest| ==> rest[k] == if k < i then indices[k] else indices[k + 1];
  }

  /** The greedy placements can all be made, in the order they were found, and never place a
      reclaim twice. */
  lemma {:induction false} GreedyFeasible(layout: Layout, pending: seq<Reclaim>, remaining: seq<Reclaim>, indices: seq<nat>, usage: map<Path, Usage>)
    requires Names(pending, remaining, indices)
    ensures var ps := Greedy(layout, remaining, indices, usage);
            && Feasible(layout, pending, usage, ps) && Distinct(ps)
            && forall k :: 0 <= k < |ps| ==> ps[k].candidate in indices
    decreases |remaining|
  {
    var next := Next(remaining, layout.tiers, usage);
    if next.Some? {
      NextFits(remaining, layout.tiers, usage);
      var c := next.value;
      NamesWithout(pending, remaining, indices, c.index);
      var p, rest := Placement(indices[c.index], c.dest), Without(indices, c.index);
      var held := Applied(layout.volumeOf, usage, c.dest.path, remaining[c.index].Size());
      assert held == Hold(layout, pending, usage, p);
      GreedyFeasible(layout, pending, Without(remaining, c.index), rest, held);
      var tail := Greedy(layout, Without(remaining, c.index), rest, held);
      assert Greedy(layout, remaining, indices, usage) == [p] + tail;
      assert ([p] + tail)[1..] == tail;
    }
  }

  function Indices(n: nat): seq<nat> {
    seq(n, i => i)
  }

  lemma {:induction false} GreedyNext(layout: Layout, remaining: seq<Reclaim>, indices: seq<nat>, usage: map<Path, Usage>, placed: seq<Placement>)
    requires |remaining| == |indices| && Next(remaining, layout.tiers, usage).Some?
    ensures Next(remaining, layout.tiers, usage).value.index < |remaining|
    ensures var c := Next(remaining, layout.tiers, usage).value;
            placed + Greedy(layout, remaining, indices, usage) ==
            placed + [Placement(indices[c.index], c.dest)] +
            Greedy(layout, Without(remaining, c.index), Without(indices, c.index), Applied(layout.volumeOf, usage, c.dest.path, remaining[c.index].Size()))
  {
    NextFits(remaining, layout.tiers, usage);
  }

  method GreedyReclaimPlacements(layout: Layout, volumes: Volumes, pending: seq<Reclaim>, usage: map<Path, Usage>) returns (placements: seq<Placement>)
    requires IsGrouping(volumes, layout.volumeOf)
    ensures placements == Greedy(layout, pending, Indices(|pending|), usage)
  {
    var capacity := new UsageTable.Copy(usage);
    var remaining, indices := pending, Indices(|pending|);
    placements := [];
    while remaining != []
      invariant |remaining| == |indices|
      invariant placements + Greedy(layout, remaining, indices, capacity.usage) == Greedy(layout, pending, Indices(|pending|), usage)
      decreases |remaining|
    {
      var next := NextReclaim(remaining, layout.tiers, capacity.usage);
      if next.None? {
        break;
      }
      NextFits(remaining, layout.tiers, capacity.usage);
      var i, dest := next.value.index, next.value.dest;
      GreedyNext(layout, remaining, indices, capacity.usage, placements);
      placements := placements + [Placement(indices[i], dest)];
      capacity.Apply(volumes, layout.volumeOf, dest.path, remaining[i].Size());
      remaining, indices := Without(remaining, i), Without(indices, i);
    }
  }

  method PlaceableReclaimCount(layout: Layout, volumes: Volumes, pending: seq<Reclaim>, usage: map<Path, Usage>) returns (placed: nat)
    requires IsGrouping(volumes, layout.volumeOf)
    ensures placed == PlaceableCount(layout, pending, usage)
  {
    var capacity := new UsageTable.Copy(usage);
    var remaining := pending;
    placed := 0;
    while remaining != []
      invariant placed + PlaceableCount(layout, remaining, capacity.usage) == PlaceableCount(layout, pending, usage)
      decreases |remaining|
    {
      var next := NextReclaim(remaining, layout.tiers, capacity.usage);
      if next.None? {
        break;
      }
      NextFits(remaining, layout.tiers, capacity.usage);
      var i, dest := next.value.index, next.value.dest;
      capacity.Apply(volumes, layout.volumeOf, dest.path, remaining[i].Size());
      remaining := Without(remaining, i);
      placed := placed + 1;
    }
  }
}
