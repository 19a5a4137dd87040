/** In what order the greedy placing takes reclaims, and when it stops (internal/planner). */
module GreedyTurns {
  import opened DiskUsage
  import opened PlannerModel
  import opened Destinations
  import opened Reclaims

  ghost predicate IsPlaced(ps: seq<Placement>, i: nat) {
    exists j :: 0 <= j < |ps| && ps[j].candidate == i
  }

  /** Reclaim i has no hot path, or more of them than c; or as many, and is smaller, or as large and not before c. */
  ghost predicate NotMoreConstrained(layout: Layout, usage: map<Path, Usage>, pending: seq<Reclaim>, i: nat, c: nat)
    requires i < |pending| && c < |pending|
  {
    var x, y := |OptionsOf(layout.tiers, usage, pending[i])|, |OptionsOf(layout.tiers, usage, pending[c])|;
    x == 0 || x > y || (x == y && (pending[i].Size() < pending[c].Size() || (pending[i].Size() == pending[c].Size() && c <= i)))
  }

  /** Placement p takes the most constrained of those named by indices to its tightest hot path. */
  ghost predicate BestChoice(layout: Layout, usage: map<Path, Usage>, pending: seq<Reclaim>, indices: seq<nat>, p: Placement) {
    && p.candidate in indices && p.candidate < |pending|
    && OptionsOf(layout.tiers, usage, pending[p.candidate]) != [] && p.dest == Tightest(OptionsOf(layout.tiers, usage, pending[p.candidate])).slot
    && forall i :: i in indices && i < |pending| ==> NotMoreConstrained(layout, usage, pending, i, p.candidate)
  }

  ghost predicate Ascending(indices: seq<nat>) {
    forall i, j :: 0 <= i < j < |indices| ==> indices[i] < indices[j]
  }

  lemma {:induction false} AscendingWithout(indices: seq<nat>, i: nat)
    requires Ascending(indices) && i < |indices|
    ensures Ascending(Without(indices, i))
  {
    var rest := Without(indices, i);
    assert forall k :: 0 <= k < |rest| ==> rest[k] == if k < i then indices[k] else indices[k + 1];
  }

  lemma {:induction false} NextIsBest(layout: Layout, pending: seq<Reclaim>, remaining: seq<Reclaim>, indices: seq<nat>, usage: map<Path, Usage>)
    requires Names(pending, remaining, indices) && Ascending(indices) && Next(remaining, layout.tiers, usage).Some?
    ensures var c := Next(remaining, layout.tiers, usage).value;
            c.index < |indices| && BestChoice(layout, usage, pending, indices, Placement(indices[c.index], c.dest))
  {
    NextIsMostConstrained(remaining, 0, layout.tiers, usage);
    var c := Next(remaining, layout.tiers, usage).value;
    forall i | i in indices && i < |pending|
      ensures NotMoreConstrained(layout, usage, pending, i, indices[c.index])
    {
      var j :| 0 <= j < |indices| && indices[j] == i;
      assert NoBetter(remaining, j, c, layout.tiers, usage);
      assert j < c.index ==> i < indices[c.index];
      assert c.index < j ==> indices[c.index] < i;
    }
  }

  /** Those of the indices that the placements leave. */
  ghost predicate IsRest(indices: seq<nat>, ps: seq<Placement>, rest: seq<nat>) {
    forall i: nat :: i in rest <==> i in indices && !IsPlaced(ps, i)
  }

  lemma {:induction false} RestAfterOne(indices: seq<nat>, k: nat, dest: Slot, ps: seq<Placement>, rest: seq<nat>)
    requires k < |indices| && NoRepeats(indices) && IsRest(Without(indices, k), ps, rest)
    ensures IsRest(indices, [Placement(indices[k], dest)] + ps, rest)
  {
    var left, all := Without(indices, k), [Placement(indices[k], dest)] + ps;
    forall i: nat
      ensures i in left <==> i in indices && i != indices[k]
      ensures IsPlaced(all, i) <==> i == indices[k] || IsPlaced(ps, i)
    {
      InWithout(indices, k, i);
      PlacedFirst(Placement(indices[k], dest), ps, i);
    }
  }

  lemma {:induction false} InWithout(indices: seq<nat>, k: nat, i: nat)
    requires k < |indices| && NoRepeats(indices)
    ensures i in Without(indices, k) <==> i in indices && i != indices[k]
  {
    var left := Without(indices, k);
    assert forall j :: 0 <= j < |left| ==> left[j] == if j < k then indices[j] else indices[j + 1];
    if i in indices && i != indices[k] {
      var j :| 0 <= j < |indices| && indices[j] == i;
      assert left[if j < k then j else j - 1] == i;
    }
  }

  lemma {:induction false} PlacedFirst(p: Placement, ps: seq<Placement>, i: nat)
    ensures IsPlaced([p] + ps, i) <==> i == p.candidate || IsPlaced(ps, i)
  {
    var all := [p] + ps;
    assert all[0] == p;
    if IsPlaced(ps, i) {
      var j :| 0 <= j < |ps| && ps[j].candidate == i;
      assert all[j + 1] == ps[j];
    }
  }

  /** Each greedy placement takes the most constrained reclaim not placed before it - fewest hot paths, then largest,
      then first - to its tightest path, room being held for those before. */
  lemma {:induction false} GreedyInTurn(layout: Layout, pending: seq<Reclaim>, remaining: seq<Reclaim>, indices: seq<nat>, usage: map<Path, Usage>, k: nat)
    returns (rest: seq<nat>)
    requires Names(pending, remaining, indices) && Ascending(indices) && k < |Greedy(layout, remaining, indices, usage)|
    ensures var ps := Greedy(layout, remaining, indices, usage);
            IsRest(indices, ps[..k], rest) && BestChoice(layout, HoldPlacements(layout, pending, usage, ps[..k]), pending, rest, ps[k])
    decreases |remaining|
  {
    NextFits(remaining, layout.tiers, usage);
    NextIsBest(layout, pending, remaining, indices, usage);
    var c := Next(remaining, layout.tiers, usage).value;
    var p := Placement(indices[c.index], c.dest);
    var ps := Greedy(layout, remaining, indices, usage);
    if k == 0 {
      assert ps[..0] == [];
      rest := indices;
    } else {
      var held := Hold(layout, pending, usage, p);
      NamesWithout(pending, remaining, indices, c.index);
      AscendingWithout(indices, c.index);
      var tail := Greedy(layout, Without(remaining, c.index), Without(indices, c.index), held);
      assert ps == [p] + tail;
      rest := GreedyInTurn(layout, pending, Without(remaining, c.index), Without(indices, c.index), held, k - 1);
      FrontAndMore(layout, pending, usage, p, tail, k);
      RestAfterOne(indices, c.index, c.dest, tail[..k - 1], rest);
    }
  }

  lemma {:induction false} FrontAndMore(layout: Layout, pending: seq<Reclaim>, usage: map<Path, Usage>, p: Placement, tail: seq<Placement>, k: nat)
    requires 0 < k <= |tail| + 1
    ensures ([p] + tail)[..k] == [p] + tail[..k - 1] && (k <= |tail| ==> ([p] + tail)[k] == tail[k - 1])
    ensures HoldPlacements(layout, pending, usage, ([p] + tail)[..k]) == HoldPlacements(layout, pending, Hold(layout, pending, usage, p), tail[..k - 1])
  {
    var front := ([p] + tail)[..k];
    assert front == [p] + tail[..k - 1] && front[1..] == tail[..k - 1];
  }

  /** It stops only when, with all of that placed, nothing left has a hot path. */
  lemma {:induction false} GreedyRunsOut(layout: Layout, pending: seq<Reclaim>, remaining: seq<Reclaim>, indices: seq<nat>, usage: map<Path, Usage>, i: nat)
    requires Names(pending, remaining, indices) && i in indices && i < |pending| && !IsPlaced(Greedy(layout, remaining, indices, usage), i)
    ensures OptionsOf(layout.tiers, HoldPlacements(layout, pending, usage, Greedy(layout, remaining, indices, usage)), pending[i]) == []
    decreases |remaining|
  {
    NextIsMostConstrained(remaining, 0, layout.tiers, usage);
    if Next(remaining, layout.tiers, usage).None? {
      var j :| 0 <= j < |indices| && indices[j] == i;
      assert remaining[j] == pending[i];
    } else {
      NextFits(remaining, layout.tiers, usage);
      var c := Next(remaining, layout.tiers, usage).value;
      var p := Placement(indices[c.index], c.dest);
      var held := Hold(layout, pending, usage, p);
      var tail := Greedy(layout, Without(remaining, c.index), Without(indices, c.index), held);
      assert Greedy(layout, remaining, indices, usage) == [p] + tail;
      NamesWithout(pending, remaining, indices, c.index);
      PlacedFirst(p, tail, i);
      InWithout(indices, c.index, i);
      GreedyRunsOut(layout, pending, Without(remaining, c.index), Without(indices, c.index), held, i);
      assert ([p] + tail)[1..] == tail;
    }
  }
}
