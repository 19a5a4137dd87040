/** When the order in which reclaims are placed does not matter, the search is optimal outright. */
module PackingOrder {
  import opened DiskUsage
  import opened PlannerModel
  import opened Destinations
  import opened Reclaims
  import opened BranchAndBound
  import opened ReclaimPhase

  predicate HotTogether(layout: Layout, s: Slot, t: Slot) {
    s.tier.role == Hot && t.tier.role == Hot && SameVolume(layout.volumeOf, s.path, t.path)
  }

  /** All hot paths on one volume share one ceiling. */
  ghost predicate UniformCeilings(layout: Layout) {
    forall s, t :: s in Slots(layout.tiers) && t in Slots(layout.tiers) && HotTogether(layout, s, t) ==>
                     s.tier.EffectiveMax() == t.tier.EffectiveMax()
  }

  /** Room held for one placement only ever makes the disks fuller. */
  lemma {:induction false} HoldFills(layout: Layout, pending: seq<Reclaim>, usage: map<Path, Usage>, p: Placement, path: Path)
    requires CanGo(layout, pending, usage, p) && path in usage
    ensures usage[path].NoFullerThan(Hold(layout, pending, usage, p)[path])
    ensures usage[path].total == Hold(layout, pending, usage, p)[path].total
  {
  }

  /** A placement that fits after another also fits before it. */
  lemma {:induction false} FitsEarlier(layout: Layout, pending: seq<Reclaim>, usage: map<Path, Usage>, a: Placement, b: Placement)
    requires CanGo(layout, pending, usage, a) && CanGo(layout, pending, Hold(layout, pending, usage, a), b)
    ensures CanGo(layout, pending, usage, b)
  {
    HoldFills(layout, pending, usage, a, b.dest.path);
    var held := Hold(layout, pending, usage, a);
    FitsMonotone(usage[b.dest.path], held[b.dest.path], pending[b.candidate].Size(), b.dest.tier.EffectiveMax(), b.dest.tier.EffectiveMax());
  }

  /** Every reclaim in a feasible list of placements had a hot path at the start. */
  lemma {:induction false} PlacedHadOptions(layout: Layout, pending: seq<Reclaim>, usage: map<Path, Usage>, ps: seq<Placement>, k: nat)
    requires Feasible(layout, pending, usage, ps) && k < |ps|
    ensures CanGo(layout, pending, usage, ps[k])
    decreases k
  {
    if k > 0 {
      PlacedHadOptions(layout, pending, Hold(layout, pending, usage, ps[0]), ps[1..], k - 1);
      FitsEarlier(layout, pending, usage, ps[0], ps[k]);
    }
  }

  lemma {:induction false} SwapOnVolume(u: Usage, a: int, b: int, ceiling: real)
    requires Fits(u, a, ceiling) && Fits(u.Plus(a), b, ceiling)
    ensures Fits(u.Plus(b), a, ceiling) && u.Plus(a).Plus(b) == u.Plus(b).Plus(a)
  {
  }

  /** Two placements that fit one after the other fit the other way round, to the same effect. */
  lemma {:induction false} Swap(layout: Layout, pending: seq<Reclaim>, usage: map<Path, Usage>, a: Placement, b: Placement)
    requires UniformCeilings(layout) && Coherent(layout.volumeOf, usage)
    requires CanGo(layout, pending, usage, a) && CanGo(layout, pending, Hold(layout, pending, usage, a), b)
    ensures CanGo(layout, pending, usage, b) && CanGo(layout, pending, Hold(layout, pending, usage, b), a)
    ensures Hold(layout, pending, Hold(layout, pending, usage, a), b) == Hold(layout, pending, Hold(layout, pending, usage, b), a)
  {
    FitsEarlier(layout, pending, usage, a, b);
    var x, y := pending[a.candidate].Size(), pending[b.candidate].Size();
    if SameVolume(layout.volumeOf, a.dest.path, b.dest.path) {
      assert usage[a.dest.path] == usage[b.dest.path];
      SwapOnVolume(usage[a.dest.path], x, y, a.dest.tier.EffectiveMax());
    }
    var ab := Hold(layout, pending, Hold(layout, pending, usage, a), b);
    var ba := Hold(layout, pending, Hold(layout, pending, usage, b), a);
    forall p | p in usage
      ensures ab[p] == ba[p]
    {
      if SameVolume(layout.volumeOf, a.dest.path, p) && SameVolume(layout.volumeOf, b.dest.path, p) {
        assert usage[p] == usage[a.dest.path];
      }
    }
  }

  lemma {:induction false} FeasibleHead(layout: Layout, pending: seq<Reclaim>, usage: map<Path, Usage>, p: Placement, rest: seq<Placement>)
    requires Feasible(layout, pending, usage, [p] + rest)
    ensures CanGo(layout, pending, usage, p) && Feasible(layout, pending, Hold(layout, pending, usage, p), rest)
  {
    assert ([p] + rest)[1..] == rest;
  }

  lemma {:induction false} MovedToFront<T>(s: seq<T>, k: nat)
    requires 0 < k < |s|
    ensures [s[k]] + Without(s, k) == [s[k], s[0]] + Without(s[1..], k - 1)
  {
  }

  /** Any one placement can be made first. */
  lemma {:induction false} MoveToFront(layout: Layout, pending: seq<Reclaim>, usage: map<Path, Usage>, ps: seq<Placement>, k: nat)
    requires UniformCeilings(layout) && Coherent(layout.volumeOf, usage)
    requires Feasible(layout, pending, usage, ps) && k < |ps|
    ensures Feasible(layout, pending, usage, [ps[k]] + Without(ps, k))
    decreases k
  {
    if k == 0 {
      assert [ps[0]] + Without(ps, 0) == ps;
    } else {
      var first, moved, rest := ps[0], ps[k], Without(ps[1..], k - 1);
      var held := Hold(layout, pending, usage, first);
      AppliedCoherent(layout.volumeOf, usage, first.dest.path, pending[first.candidate].Size());
      MoveToFront(layout, pending, held, ps[1..], k - 1);
      FeasibleHead(layout, pending, held, moved, rest);
      Swap(layout, pending, usage, first, moved);
      FeasibleTwo(layout, pending, usage, moved, first, rest);
      MovedToFront(ps, k);
    }
  }

  lemma {:induction false} FeasibleTwo(layout: Layout, pending: seq<Reclaim>, usage: map<Path, Usage>, a: Placement, b: Placement, rest: seq<Placement>)
    requires CanGo(layout, pending, usage, a) && CanGo(layout, pending, Hold(layout, pending, usage, a), b)
    requires Feasible(layout, pending, Hold(layout, pending, Hold(layout, pending, usage, a), b), rest)
    ensures Feasible(layout, pending, usage, [a, b] + rest)
  {
    assert ([b] + rest)[1..] == rest;
    assert Feasible(layout, pending, Hold(layout, pending, usage, a), [b] + rest);
    assert ([a, b] + rest)[1..] == [b] + rest;
  }

  lemma {:induction false} OthersDistinct(ps: seq<Placement>, k: nat)
    requires Distinct(ps) && k < |ps|
    ensures Distinct(Without(ps, k))
    ensures forall i :: 0 <= i < |Without(ps, k)| ==> Without(ps, k)[i] in ps && Without(ps, k)[i].candidate != ps[k].candidate
  {
    var rest := Without(ps, k);
    assert forall i :: 0 <= i < |rest| ==> rest[i] == if i < k then ps[i] else ps[i + 1];
  }

  lemma {:induction false} TakeFirst(layout: Layout, pending: seq<Reclaim>, usage: map<Path, Usage>, ps: seq<Placement>, k: nat)
    requires UniformCeilings(layout) && Coherent(layout.volumeOf, usage)
    requires Feasible(layout, pending, usage, ps) && Distinct(ps) && k < |ps|
    ensures var held := Hold(layout, pending, usage, ps[k]);
            CanGo(layout, pending, usage, ps[k]) && Feasible(layout, pending, held, Without(ps, k)) && Coherent(layout.volumeOf, held)
    ensures Distinct(Without(ps, k))
    ensures forall i :: 0 <= i < |Without(ps, k)| ==> Without(ps, k)[i] in ps && Without(ps, k)[i].candidate != ps[k].candidate
  {
    var rest := Without(ps, k);
    MoveToFront(layout, pending, usage, ps, k);
    FeasibleHead(layout, pending, usage, ps[k], rest);
    OthersDistinct(ps, k);
    AppliedCoherent(layout.volumeOf, usage, ps[k].dest.path, pending[ps[k].candidate].Size());
  }

  /** Whatever can be placed in some order can be placed in the search order. */
  lemma {:induction false} InSearchOrder(layout: Layout, pending: seq<Reclaim>, usage: map<Path, Usage>, order: seq<nat>, ps: seq<Placement>) returns (qs: seq<Placement>)
    requires UniformCeilings(layout) && Coherent(layout.volumeOf, usage)
    requires Feasible(layout, pending, usage, ps) && Distinct(ps)
    requires forall k :: 0 <= k < |ps| ==> ps[k].candidate in order
    ensures Follows(order, qs) && Feasible(layout, pending, usage, qs) && |qs| == |ps|
    decreases |order|
  {
    if ps == [] {
      qs := [];
    } else if exists k :: 0 <= k < |ps| && ps[k].candidate == order[0] {
      var k :| 0 <= k < |ps| && ps[k].candidate == order[0];
      var rest := Without(ps, k);
      TakeFirst(layout, pending, usage, ps, k);
      var tail := InSearchOrder(layout, pending, Hold(layout, pending, usage, ps[k]), order[1..], rest);
      qs := [ps[k]] + tail;
      assert qs[1..] == tail;
    } else {
      qs := InSearchOrder(layout, pending, usage, order[1..], ps);
    }
  }

  /** With one ceiling per volume, covering the search order covers every order: no choice of
      reclaims, destinations and sequence places more. */
  lemma {:induction false} OptimalInAnyOrder(layout: Layout, pending: seq<Reclaim>, usage: map<Path, Usage>, order: seq<nat>, best: nat, ps: seq<Placement>)
    requires UniformCeilings(layout) && Coherent(layout.volumeOf, usage)
    requires IsSearchOrder(layout, pending, usage, order)
    requires forall qs: seq<Placement> :: Follows(order, qs) && Feasible(layout, pending, usage, qs) ==> |qs| <= best
    requires Feasible(layout, pending, usage, ps) && Distinct(ps)
    ensures |ps| <= best
  {
    forall k | 0 <= k < |ps|
      ensures ps[k].candidate in order
    {
      PlacedHadOptions(layout, pending, usage, ps, k);
      var r := pending[ps[k].candidate];
      HotOptionsExact(Slots(layout.tiers), usage, r.Media(), r.Size(), ps[k].dest);
    }
    var qs := InSearchOrder(layout, pending, usage, order, ps);
  }
}
