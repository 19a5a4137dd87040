/** How many reclaims each phase of a plan takes (internal/planner). */
module PlanOptimality {
  import opened DiskUsage
  import opened PlannerModel
  import opened Destinations
  import opened Reclaims
  import opened BranchAndBound
  import opened ReclaimPhase
  import opened PackingOrder
  import opened Planner
  import opened FillPhase
  import opened PlanRounds
  import opened Build
  import opened PlanContents

  // ----- which choices there are

  /** Placement k takes a reclaim to a hot path with room for it, room being held for those before. */
  ghost predicate RoomInTurn(layout: Layout, pending: seq<Reclaim>, usage: map<Path, Usage>, ps: seq<Placement>, k: nat)
    requires k < |ps|
  {
    var p := ps[k];
    && p.candidate < |pending| && p.dest.tier in layout.tiers && p.dest.tier.role == Hot
    && RoomOn(p.dest.tier, p.dest.path, HoldPlacements(layout, pending, usage, ps[..k]), pending[p.candidate].eval.item, CeilingOf(p.dest.tier))
  }

  lemma {:induction false} CanGoIsRoom(layout: Layout, pending: seq<Reclaim>, usage: map<Path, Usage>, p: Placement)
    ensures CanGo(layout, pending, usage, p) <==>
              && p.candidate < |pending| && p.dest.tier in layout.tiers && p.dest.tier.role == Hot
              && RoomOn(p.dest.tier, p.dest.path, usage, pending[p.candidate].eval.item, CeilingOf(p.dest.tier))
  {
    if p.dest in Slots(layout.tiers) {
      SlotsFromTiers(layout.tiers, p.dest);
    } else if p.dest.tier in layout.tiers && p.dest.path in p.dest.tier.paths {
      InSlots(layout.tiers, p.dest.tier, p.dest.path);
    }
    if p.candidate < |pending| && p.dest.path in usage {
      FitsIsRoom(usage[p.dest.path], pending[p.candidate].Size(), CeilingOf(p.dest.tier));
    }
  }

  lemma {:induction false} InTurnIsFeasible(layout: Layout, pending: seq<Reclaim>, usage: map<Path, Usage>, ps: seq<Placement>)
    requires forall k :: 0 <= k < |ps| ==> RoomInTurn(layout, pending, usage, ps, k)
    ensures Feasible(layout, pending, usage, ps)
    decreases |ps|
  {
    if ps != [] {
      var held := Hold(layout, pending, usage, ps[0]);
      assert RoomInTurn(layout, pending, usage, ps, 0) && ps[..0] == [];
      CanGoIsRoom(layout, pending, usage, ps[0]);
      forall k | 0 <= k < |ps| - 1
        ensures RoomInTurn(layout, pending, held, ps[1..], k)
      {
        assert RoomInTurn(layout, pending, usage, ps, k + 1);
        assert ps[..k + 1][1..] == ps[1..][..k];
      }
      InTurnIsFeasible(layout, pending, held, ps[1..]);
    }
  }

  /** Placements are feasible exactly when each has room in its turn. */
  lemma {:induction false} FeasibleInTurn(layout: Layout, pending: seq<Reclaim>, usage: map<Path, Usage>, ps: seq<Placement>)
    ensures Feasible(layout, pending, usage, ps) <==> forall k :: 0 <= k < |ps| ==> RoomInTurn(layout, pending, usage, ps, k)
  {
    if Feasible(layout, pending, usage, ps) {
      forall k | 0 <= k < |ps|
        ensures RoomInTurn(layout, pending, usage, ps, k)
      {
        FeasibleAt(layout, pending, usage, ps, k);
        CanGoIsRoom(layout, pending, HoldPlacements(layout, pending, usage, ps[..k]), ps[k]);
      }
    } else if forall k :: 0 <= k < |ps| ==> RoomInTurn(layout, pending, usage, ps, k) {
      InTurnIsFeasible(layout, pending, usage, ps);
    }
  }

  // ----- the phases take the most

  /** The pending reclaims that some hot path has room for. */
  ghost function WithHotPath(layout: Layout, s: Standing): set<nat> {
    set k: nat | k < |s.reclaims| && OptionsOf(layout.tiers, s.usage, s.reclaims[k]) != []
  }

  lemma {:induction false} DistinctCount(s: seq<nat>)
    requires NoRepeats(s)
    ensures |AsSet(s)| == |s|
    decreases |s|
  {
    if s != [] {
      var n := |s| - 1;
      DistinctCount(s[..n]);
      OneMoreIndex(s[..n], s[n]);
      assert s == s[..n] + [s[n]] && s[n] !in s[..n];
    }
  }

  lemma {:induction false} OrderCovers(layout: Layout, s: Standing, order: seq<nat>)
    requires IsSearchOrder(layout, s.reclaims, s.usage, order)
    ensures |order| == |WithHotPath(layout, s)|
  {
    DistinctCount(order);
    assert AsSet(order) == WithHotPath(layout, s);
  }

  /** While the search tree of a reclaim phase is small enough, no choice of reclaims, hot paths and sequence
      places more than the phase does. */
  lemma {:induction false} PhasePlacesMost(layout: Layout, s: Standing, hot: seq<MoveEntry>, placed: seq<nat>, ps: seq<Placement>)
    requires GoodReclaims(layout, s, hot, placed) && UniformCeilings(layout) && Coherent(layout.volumeOf, s.usage)
    requires TreeSize(|Slots(layout.tiers)|, |WithHotPath(layout, s)|) < 50_000
    requires Feasible(layout, s.reclaims, s.usage, ps) && Distinct(ps)
    ensures |ps| <= |hot|
  {
    if |hot| == |s.reclaims| {
      FeasibleInRange(layout, s.reclaims, s.usage, ps);
      DistinctBounded(ps, |s.reclaims|);
    } else {
      var order :| MostInOrder(layout, s.reclaims, s.usage, order, |hot|);
      OrderCovers(layout, s, order);
      OptimalInAnyOrder(layout, s.reclaims, s.usage, order, |hot|, ps);
    }
  }

  lemma {:induction false} RoundCoherent(layout: Layout, r: Round)
    requires Coherent(layout.volumeOf, r.start.usage)
    ensures Coherent(layout.volumeOf, End(layout, r).usage)
  {
    AfterCoherent(layout.volumeOf, r.start.usage, r.hot);
    AfterCoherent(layout.volumeOf, Middle(layout, r).usage, r.cold);
  }

  lemma {:induction false} StartsCoherent(site: Site, first: Standing, log: seq<Round>, end: Standing, r: Round)
    requires WholeRun(site, first, log, end) && Coherent(site.layout.volumeOf, first.usage) && r in log
    ensures RoundOk(site, r) && Coherent(site.layout.volumeOf, r.start.usage)
    decreases |log|
  {
    RunBegins(site, first, log, end);
    if r != log[0] {
      RoundCoherent(site.layout, log[0]);
      StartsCoherent(site, End(site.layout, log[0]), log[1..], end, r);
    }
  }

  /** So it is in every round of a plan. */
  lemma {:induction false} RoundsPlaceMost(input: Input, site: Site, reclaims: seq<Reclaim>, fills: seq<ItemEval>, plan: Plan, log: seq<Round>, end: Standing,
                                           r: Round, ps: seq<Placement>)
    requires LogOf(input, site, reclaims, fills, plan, log, end) && r in log && site.layout == input.layout
    requires UniformCeilings(input.layout) && Coherent(input.layout.volumeOf, input.usage)
    requires TreeSize(|Slots(input.layout.tiers)|, |WithHotPath(input.layout, r.start)|) < 50_000
    requires Feasible(input.layout, r.start.reclaims, r.start.usage, ps) && Distinct(ps)
    ensures |ps| <= |r.hot|
  {
    StartsCoherent(site, FirstStanding(input, reclaims, fills), log, end, r);
    PhasePlacesMost(input.layout, r.start, r.hot, r.placed, ps);
  }

  // ----- the goals of the waves

  function Fourfold(n: nat): nat {
    if n == 0 then 1 else 4 * Fourfold(n - 1)
  }

  /** The goal is the fourfold of what it was for each wave since, or nothing beyond it is pending. */
  ghost predicate Grown(goal: nat, waves: nat, pending: nat) {
    goal == Fourfold(waves) || (goal <= Fourfold(waves) && pending <= goal)
  }

  lemma {:induction false} GrownOnce(goal: nat, waves: nat, before: nat, left: nat)
    requires Grown(goal, waves, before) && left <= before
    ensures Grown(GrownGoal(goal, left), waves + 1, left)
  {
  }

  function OneMoreIf(waves: nat, hot: seq<MoveEntry>): nat {
    if hot == [] then waves else waves + 1
  }

  /** In each round of the log, which comes after so many waves, the goal the fills aim at has grown so. */
  ghost predicate GoalsGrown(layout: Layout, log: seq<Round>, waves: nat)
    decreases |log|
  {
    log == [] || (var m, waves' := Middle(layout, log[0]), OneMoreIf(waves, log[0].hot);
                  Grown(m.goal, waves', |m.reclaims|) && GoalsGrown(layout, log[1..], waves'))
  }

  lemma {:induction false} GoalAfterRound(layout: Layout, s: Standing, hot: seq<MoveEntry>, placed: seq<nat>, waves: nat)
    requires Selects(s.reclaims, placed) && Grown(s.goal, waves, |s.reclaims|)
    ensures var m := AfterReclaimPhase(layout, s, hot, placed);
            Grown(m.goal, OneMoreIf(waves, hot), |m.reclaims|)
  {
    PickedOrLeft(s.reclaims, placed);
    GrownOnce(s.goal, waves, |s.reclaims|, |Dropping(s.reclaims, AsSet(placed))|);
  }

  lemma {:induction false} GoalsGrowFrom(site: Site, first: Standing, log: seq<Round>, end: Standing, waves: nat)
    requires WholeRun(site, first, log, end) && Grown(first.goal, waves, |first.reclaims|)
    ensures GoalsGrown(site.layout, log, waves)
    decreases |log|
  {
    RunBegins(site, first, log, end);
    var r := log[0];
    GoalAfterRound(site.layout, first, r.hot, r.placed, waves);
    if Progressed(r) {
      GoalsGrowFrom(site, End(site.layout, r), log[1..], end, OneMoreIf(waves, r.hot));
    } else {
      assert log[1..] == [];
    }
  }

  /** The fills make room for one reclaim before the first wave, for 4 after it, for 16 after the second and so on,
      or for all that are still pending. */
  lemma {:induction false} GoalsGrow(input: Input, site: Site, reclaims: seq<Reclaim>, fills: seq<ItemEval>, plan: Plan, log: seq<Round>, end: Standing)
    requires LogOf(input, site, reclaims, fills, plan, log, end)
    ensures GoalsGrown(site.layout, log, 0)
  {
    GoalsGrowFrom(site, FirstStanding(input, reclaims, fills), log, end, 0);
  }
}
