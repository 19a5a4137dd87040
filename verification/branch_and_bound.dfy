/** allocateReclaims: the bounded backtracking search over reclaim placements (internal/planner). */
module BranchAndBound {
  import opened DiskUsage
  import opened PlannerModel
  import opened Destinations
  import opened Reclaims
  import opened Sorting

  const SEARCH_BUDGET := 50_000

  /** The placements take up reclaims in the order given, each at most once. */
  ghost predicate Follows(order: seq<nat>, ps: seq<Placement>) {
    ps == []
    || (order != [] && ((ps[0].candidate == order[0] && Follows(order[1..], ps[1..])) || Follows(order[1..], ps)))
  }

  lemma {:induction false} FollowsMembers(order: seq<nat>, ps: seq<Placement>)
    requires Follows(order, ps)
    ensures |ps| <= |order|
    ensures forall k :: 0 <= k < |ps| ==> ps[k].candidate in order
    decreases |order|
  {
    if ps != [] {
      if ps[0].candidate == order[0] && Follows(order[1..], ps[1..]) {
        FollowsMembers(order[1..], ps[1..]);
      } else {
        FollowsMembers(order[1..], ps);
      }
    }
  }

  lemma {:induction false} FollowsDistinct(order: seq<nat>, ps: seq<Placement>)
    requires Follows(order, ps) && NoRepeats(order)
    ensures Distinct(ps)
    decreases |order|
  {
    if ps != [] {
      if ps[0].candidate == order[0] && Follows(order[1..], ps[1..]) {
        FollowsDistinct(order[1..], ps[1..]);
        FollowsMembers(order[1..], ps[1..]);
      } else {
        FollowsDistinct(order[1..], ps);
      }
    }
  }

  lemma {:induction false} FollowsSkip(order: seq<nat>, ps: seq<Placement>, c: nat)
    requires Follows(order, ps)
    ensures Follows(order + [c], ps)
    decreases |order|
  {
    if ps != [] {
      assert (order + [c])[1..] == order[1..] + [c];
      if ps[0].candidate == order[0] && Follows(order[1..], ps[1..]) {
        FollowsSkip(order[1..], ps[1..], c);
      } else {
        FollowsSkip(order[1..], ps, c);
      }
    }
  }

  lemma {:induction false} FollowsTake(order: seq<nat>, ps: seq<Placement>, p: Placement)
    requires Follows(order, ps)
    ensures Follows(order + [p.candidate], ps + [p])
    decreases |order|
  {
    if order == [] {
      assert order + [p.candidate] == [p.candidate] && ps + [p] == [p];
    } else {
      assert (order + [p.candidate])[1..] == order[1..] + [p.candidate];
      if ps == [] {
        FollowsTake(order[1..], ps, p);
      } else {
        assert (ps + [p])[1..] == ps[1..] + [p];
        if ps[0].candidate == order[0] && Follows(order[1..], ps[1..]) {
          FollowsTake(order[1..], ps[1..], p);
        } else {
          FollowsTake(order[1..], ps, p);
        }
      }
    }
  }

  lemma {:induction false} HoldAllCoherent(layout: Layout, pending: seq<Reclaim>, usage: map<Path, Usage>, ps: seq<Placement>)
    requires Coherent(layout.volumeOf, usage)
    ensures Coherent(layout.volumeOf, HoldPlacements(layout, pending, usage, ps))
  {
    if ps != [] {
      HoldAllCoherent(layout, pending, Hold(layout, pending, usage, ps[0]), ps[1..]);
    }
  }

  /** No way of placing the reclaims still to come, on what is left now, beats the best found. */
  ghost predicate Covered(layout: Layout, pending: seq<Reclaim>, rest: seq<nat>, usage: map<Path, Usage>, placed: nat, best: nat) {
    forall ps: seq<Placement> :: Follows(rest, ps) && Feasible(layout, pending, usage, ps) ==> placed + |ps| <= best
  }

  lemma {:induction false} CoveredMonotone(layout: Layout, pending: seq<Reclaim>, rest: seq<nat>, usage: map<Path, Usage>, placed: nat, before: nat, best: nat)
    requires before <= best && Covered(layout, pending, rest, usage, placed, before)
    ensures Covered(layout, pending, rest, usage, placed, best)
  {
  }

  /** The same, with the first of them placed on dest. */
  ghost predicate Explored(layout: Layout, pending: seq<Reclaim>, rest: seq<nat>, usage: map<Path, Usage>, dest: Slot, placed: nat, best: nat)
    requires rest != []
  {
    Covered(layout, pending, rest[1..], Hold(layout, pending, usage, Placement(rest[0], dest)), placed + 1, best)
  }

  ghost predicate AllExplored(layout: Layout, pending: seq<Reclaim>, rest: seq<nat>, usage: map<Path, Usage>, options: seq<HotOption>, placed: nat, best: nat)
    requires rest != []
  {
    forall i :: 0 <= i < |options| ==> Explored(layout, pending, rest, usage, options[i].slot, placed, best)
  }

  lemma {:induction false} ExploredMonotone(layout: Layout, pending: seq<Reclaim>, rest: seq<nat>, usage: map<Path, Usage>, dest: Slot, placed: nat, before: nat, best: nat)
    requires rest != [] && before <= best && Explored(layout, pending, rest, usage, dest, placed, before)
    ensures Explored(layout, pending, rest, usage, dest, placed, best)
  {
  }

  /** A better best keeps what was explored explored, and one more option can be added to it. */
  lemma {:induction false} StillExplored(layout: Layout, pending: seq<Reclaim>, rest: seq<nat>, usage: map<Path, Usage>, options: seq<HotOption>, k: nat,
                      placed: nat, before: nat, best: nat)
    requires rest != [] && k <= |options| && before <= best
    requires AllExplored(layout, pending, rest, usage, options[..k], placed, before)
    requires k < |options| ==> Explored(layout, pending, rest, usage, options[k].slot, placed, best)
    ensures AllExplored(layout, pending, rest, usage, if k < |options| then options[..k + 1] else options, placed, best)
  {
    var now := if k < |options| then options[..k + 1] else options;
    forall i | 0 <= i < |now|
      ensures Explored(layout, pending, rest, usage, now[i].slot, placed, best)
    {
      if i < k {
        assert now[i] == options[..k][i];
        ExploredMonotone(layout, pending, rest, usage, now[i].slot, placed, before, best);
      }
    }
  }

  /** The list holds exactly the options the reclaim has. */
  ghost predicate Offers(layout: Layout, usage: map<Path, Usage>, r: Reclaim, options: seq<HotOption>) {
    forall o :: o in options <==> o in OptionsOf(layout.tiers, usage, r)
  }

  ghost predicate Offered(layout: Layout, usage: map<Path, Usage>, r: Reclaim, dest: Slot) {
    exists o :: o in OptionsOf(layout.tiers, usage, r) && o.slot == dest
  }

  lemma {:induction false} OptionIsOffered(layout: Layout, usage: map<Path, Usage>, r: Reclaim, options: seq<HotOption>, k: nat)
    requires Offers(layout, usage, r, options) && k < |options|
    ensures Offered(layout, usage, r, options[k].slot)
  {
    assert options[k] in options;
  }

  /** The most nodes a search of n reclaims over m slots can visit: at each, every slot and leaving out. */
  ghost function TreeSize(m: nat, n: nat): nat {
    if n == 0 then 1 else 1 + Times(m + 1, TreeSize(m, n - 1))
  }

  ghost function Power(base: nat, n: nat): nat {
    if n == 0 then 1 else base * Power(base, n - 1)
  }

  /** In numbers: with m slots, one m-th of (m + 1) to the n + 1, all but one. */
  lemma {:induction false} TreeSizeIs(m: nat, n: nat)
    ensures m * TreeSize(m, n) + 1 == Power(m + 1, n + 1)
  {
    if n == 0 {
      assert Power(m + 1, 1) == (m + 1) * Power(m + 1, 0);
    } else {
      TreeSizeIs(m, n - 1);
      TimesIs(m + 1, TreeSize(m, n - 1));
      OneLevelMore(m, TreeSize(m, n - 1), Power(m + 1, n));
    }
  }

  lemma {:induction false} OneLevelMore(m: nat, t: nat, p: nat)
    requires m * t + 1 == p
    ensures m * (1 + (m + 1) * t) + 1 == (m + 1) * p
  {
    assert (m + 1) * p == (m + 1) * (m * t) + (m + 1);
    assert m * ((m + 1) * t) == (m + 1) * (m * t);
  }

  lemma {:induction false} TimesIs(k: nat, size: nat)
    ensures Times(k, size) == k * size
  {
    if k > 0 {
      TimesIs(k - 1, size);
    }
  }

  lemma {:induction false} TreeGrows(m: nat, n: nat, k: nat)
    requires n <= k
    ensures TreeSize(m, n) <= TreeSize(m, k)
    decreases k
  {
    if n < k {
      TreeGrows(m, n, k - 1);
      MoreBranches(1, m + 1, TreeSize(m, k - 1));
    }
  }

  /** size added up k times. */
  ghost function Times(k: nat, size: nat): nat {
    if k == 0 then 0 else Times(k - 1, size) + size
  }

  lemma {:induction false} MoreBranches(j: nat, k: nat, size: nat)
    requires j <= k
    ensures Times(j, size) <= Times(k, size)
    decreases k
  {
    if j < k {
      MoreBranches(j, k - 1, size);
    }
  }

  lemma {:induction false} OneMoreTime(k: nat, size: nat)
    ensures Times(k + 1, size) == Times(k, size) + size
  {
  }

  /** One more branch visits at most one more subtree. */
  lemma {:induction false} CountBranch(size: nat, k: nat, j: nat, start: nat, before: nat, after: nat)
    requires k < j && before <= start + Times(k, size) && after <= before + size
    ensures after <= start + Times(k + 1, size) && after <= start + Times(j, size)
  {
    OneMoreTime(k, size);
    MoreBranches(k + 1, j, size);
  }

  /** The state the search closure captures. */
  class Search {
    const layout: Layout
    const volumes: Volumes
    const pending: seq<Reclaim>
    const order: seq<nat>
    const capacity: UsageTable
    ghost const start: map<Path, Usage>
    var best: seq<Placement>
    var current: seq<Placement>
    var nodes: nat

    ghost predicate Valid()
      reads this, capacity
    {
      && IsGrouping(volumes, layout.volumeOf) && Coherent(layout.volumeOf, start)
      && NoRepeats(order) && (forall k :: 0 <= k < |order| ==> order[k] < |pending|)
      && Feasible(layout, pending, start, best) && Distinct(best)
      && Feasible(layout, pending, start, current)
      && capacity.usage == HoldPlacements(layout, pending, start, current)
    }

    constructor (layout: Layout, volumes: Volumes, pending: seq<Reclaim>, usage: map<Path, Usage>, order: seq<nat>, seed: seq<Placement>)
      requires IsGrouping(volumes, layout.volumeOf) && Coherent(layout.volumeOf, usage)
      requires NoRepeats(order) && forall k :: 0 <= k < |order| ==> order[k] < |pending|
      requires Feasible(layout, pending, usage, seed) && Distinct(seed)
      ensures Valid() && fresh(this) && fresh(capacity)
      ensures this.layout == layout && this.pending == pending && this.order == order && start == usage
      ensures best == seed && current == [] && nodes == 0 && capacity.usage == usage
    {
      this.layout, this.volumes, this.pending, this.order, start := layout, volumes, pending, order, usage;
      best, current, nodes := seed, [], 0;
      capacity := new UsageTable.Copy(usage);
    }

    /** Leaves current and capacity exactly as it found them, never loses a placement, and - unless
        the node budget ran out - has looked at everything that could beat the best found. tree is the
        most nodes that can visit. */
    method Run(position: nat, ghost tree: nat)
      requires Valid() && position <= |order| && Follows(order[..position], current) && tree == TreeSize(|Slots(layout.tiers)|, |order| - position)
      modifies this`best, this`current, this`nodes, capacity
      ensures Valid() && current == old(current) && capacity.usage == old(capacity.usage)
      ensures |best| >= |old(best)| && old(nodes) <= nodes <= old(nodes) + tree
      ensures nodes < SEARCH_BUDGET ==> Covered(layout, pending, order[position..], capacity.usage, |current|, |best|)
      decreases |order| - position, 3
    {
      FollowsMembers(order[..position], current);
      AtMostTheRest(layout, pending, order[position..], capacity.usage, |current|);
      if |best| == |order| || nodes >= SEARCH_BUDGET {
        return;
      }
      nodes := nodes + 1;
      if |current| + |order| - position <= |best| {
        return;
      }
      if position == |order| {
        FollowsDistinct(order[..position], current);
        assert order[..position] == order;
        best := current;
        return;
      }
      Expand(position, TreeSize(|Slots(layout.tiers)|, |order| - (position + 1)));
    }

    /** Tries the reclaim at position on every option, and then left out. */
    method Expand(position: nat, ghost tree: nat)
      requires Valid() && position < |order| && Follows(order[..position], current) && tree == TreeSize(|Slots(layout.tiers)|, |order| - (position + 1))
      modifies this`best, this`current, this`nodes, capacity
      ensures Valid() && current == old(current) && capacity.usage == old(capacity.usage)
      ensures |best| >= |old(best)| && nodes >= old(nodes)
      ensures nodes <= old(nodes) + Times(|Slots(layout.tiers)| + 1, tree)
      ensures nodes < SEARCH_BUDGET && |best| != |order| ==> Covered(layout, pending, order[position..], capacity.usage, |current|, |best|)
      decreases |order| - position, 2
    {
      ghost var branches := |Slots(layout.tiers)| + 1;
      ghost var options;
      var more;
      options, more := TryOptions(position, tree);
      ghost var visited := nodes;
      MoreBranches(|options|, branches, tree);
      if more {
        LeaveOut(position, options, tree);
        CountBranch(tree, |options|, branches, old(nodes), visited, nodes);
      }
    }

    /** Searches on without the reclaim at position, all its options having been tried. */
    method LeaveOut(position: nat, ghost options: seq<HotOption>, ghost tree: nat)
      requires Valid() && position < |order| && Follows(order[..position], current) && tree == TreeSize(|Slots(layout.tiers)|, |order| - (position + 1))
      requires Offers(layout, capacity.usage, pending[order[position]], options)
      requires nodes < SEARCH_BUDGET ==> AllExplored(layout, pending, order[position..], capacity.usage, options, |current|, |best|)
      modifies this`best, this`current, this`nodes, capacity
      ensures Valid() && current == old(current) && capacity.usage == old(capacity.usage)
      ensures |best| >= |old(best)| && old(nodes) <= nodes <= old(nodes) + tree
      ensures nodes < SEARCH_BUDGET ==> Covered(layout, pending, order[position..], capacity.usage, |current|, |best|)
      decreases |order| - position, 1
    {
      ghost var before, held := |best|, capacity.usage;
      FollowsSkip(order[..position], current, order[position]);
      assert order[position..][1..] == order[position + 1..];
      assert order[..position + 1] == order[..position] + [order[position]];
      Run(position + 1, tree);
      if nodes < SEARCH_BUDGET {
        assert options[..|options|] == options && order[position..][0] == order[position];
        StillExplored(layout, pending, order[position..], held, options, |options|, |current|, before, |best|);
        EveryFirstChoice(layout, pending, order[position..], held, options, |current|, |best|);
      }
    }

    /** Tries the reclaim at position on every option, until nothing better or no budget is left. */
    method TryOptions(position: nat, ghost tree: nat) returns (ghost all: seq<HotOption>, more: bool)
      requires Valid() && position < |order| && Follows(order[..position], current) && tree == TreeSize(|Slots(layout.tiers)|, |order| - (position + 1))
      modifies this`best, this`current, this`nodes, capacity
      ensures Valid() && current == old(current) && capacity.usage == old(capacity.usage)
      ensures |all| <= |Slots(layout.tiers)| && Offers(layout, old(capacity.usage), pending[order[position]], all)
      ensures |best| >= |old(best)| && old(nodes) <= nodes <= old(nodes) + Times(|all|, tree)
      ensures !more ==> |best| == |order| || nodes >= SEARCH_BUDGET
      ensures more && nodes < SEARCH_BUDGET ==> AllExplored(layout, pending, order[position..], capacity.usage, all, |current|, |best|)
      decreases |order| - position, 1
    {
      var options := SortedOptions(layout.tiers, capacity.usage, pending[order[position]]);
      ghost var held := capacity.usage;
      all := options;
      for k := 0 to |options|
        invariant Valid() && current == old(current) && capacity.usage == held
        invariant |best| >= |old(best)| && old(nodes) <= nodes <= old(nodes) + Times(k, tree)
        invariant nodes < SEARCH_BUDGET ==> AllExplored(layout, pending, order[position..], held, options[..k], |current|, |best|)
      {
        TryNext(position, options, k, held, tree, old(nodes));
        if |best| == |order| || nodes >= SEARCH_BUDGET {
          MoreBranches(k + 1, |options|, tree);
          return options, false;
        }
      }
      assert options[..|options|] == options;
      return options, true;
    }

    /** One option more, counting nodes from a number of them. */
    method TryNext(position: nat, options: seq<HotOption>, k: nat, ghost held: map<Path, Usage>, ghost tree: nat, ghost from: nat)
      requires Valid() && position < |order| && Follows(order[..position], current) && k < |options|
      requires capacity.usage == held && Offers(layout, held, pending[order[position]], options)
      requires tree == TreeSize(|Slots(layout.tiers)|, |order| - (position + 1)) && nodes <= from + Times(k, tree)
      requires nodes < SEARCH_BUDGET ==> AllExplored(layout, pending, order[position..], held, options[..k], |current|, |best|)
      modifies this`best, this`current, this`nodes, capacity
      ensures Valid() && current == old(current) && capacity.usage == held
      ensures |best| >= |old(best)| && old(nodes) <= nodes <= from + Times(k + 1, tree)
      ensures nodes < SEARCH_BUDGET ==> AllExplored(layout, pending, order[position..], held, options[..k + 1], |current|, |best|)
      decreases |order| - position, 0, 2
    {
      OptionIsOffered(layout, held, pending[order[position]], options, k);
      Branch(position, options[k].slot, tree);
      OneMoreTime(k, tree);
      if nodes < SEARCH_BUDGET {
        StillExplored(layout, pending, order[position..], held, options, k, |current|, |old(best)|, |best|);
      }
    }

    method PlaceOn(position: nat, dest: Slot)
      requires Valid() && position < |order| && Follows(order[..position], current)
      requires Offered(layout, capacity.usage, pending[order[position]], dest)
      modifies this`current, capacity
      ensures Valid() && current == old(current) + [Placement(order[position], dest)] && Follows(order[..position + 1], current)
      ensures capacity.usage == Hold(layout, pending, old(capacity.usage), Placement(order[position], dest))
      ensures old(capacity.usage) == Applied(layout.volumeOf, capacity.usage, dest.path, -pending[order[position]].Size())
    {
      ghost var held := capacity.usage;
      CanExtend(layout, pending, start, order, position, current, held, dest);
      current := current + [Placement(order[position], dest)];
      capacity.Apply(volumes, layout.volumeOf, dest.path, pending[order[position]].Size());
      assert capacity.usage == Hold(layout, pending, held, Placement(order[position], dest));
    }

    /** Takes the last placement back, and gives its room back. */
    method TakeBack(position: nat, dest: Slot, ghost was: seq<Placement>, ghost held: map<Path, Usage>)
      requires Valid() && position < |order| && current == was + [Placement(order[position], dest)]
      requires Feasible(layout, pending, start, was) && held == HoldPlacements(layout, pending, start, was)
      requires held == Applied(layout.volumeOf, capacity.usage, dest.path, -pending[order[position]].Size())
      modifies this`current, capacity
      ensures Valid() && current == was && capacity.usage == held
    {
      capacity.Apply(volumes, layout.volumeOf, dest.path, -pending[order[position]].Size());
      current := current[..|current| - 1];
      assert current == was;
    }

    /** One branch: place the reclaim at position on dest, search on, and take it back. tree is the most nodes
        that can visit. */
    method Branch(position: nat, dest: Slot, ghost tree: nat)
      requires Valid() && position < |order| && Follows(order[..position], current)
      requires Offered(layout, capacity.usage, pending[order[position]], dest) && tree == TreeSize(|Slots(layout.tiers)|, |order| - (position + 1))
      modifies this`best, this`current, this`nodes, capacity
      ensures Valid() && current == old(current) && capacity.usage == old(capacity.usage)
      ensures |best| >= |old(best)| && old(nodes) <= nodes <= old(nodes) + tree
      ensures nodes < SEARCH_BUDGET ==> Explored(layout, pending, order[position..], capacity.usage, dest, |current|, |best|)
      decreases |order| - position, 0, 1
    {
      ghost var was, held := current, capacity.usage;
      PlaceOn(position, dest);
      Descend(position, dest, |was|, held, tree);
      TakeBack(position, dest, was, held);
    }

    /** Searches on below a placement just made on what held leaves. */
    method Descend(position: nat, dest: Slot, ghost placed: nat, ghost held: map<Path, Usage>, ghost tree: nat)
      requires Valid() && position < |order| && Follows(order[..position + 1], current) && |current| == placed + 1
      requires capacity.usage == Hold(layout, pending, held, Placement(order[position], dest)) && tree == TreeSize(|Slots(layout.tiers)|, |order| - (position + 1))
      modifies this`best, this`current, this`nodes, capacity
      ensures Valid() && current == old(current) && capacity.usage == old(capacity.usage)
      ensures |best| >= |old(best)| && old(nodes) <= nodes <= old(nodes) + tree
      ensures nodes < SEARCH_BUDGET ==> Explored(layout, pending, order[position..], held, dest, placed, |best|)
      decreases |order| - position, 0, 0
    {
      Run(position + 1, tree);
      if nodes < SEARCH_BUDGET {
        ExploredFrom(layout, pending, order, position, held, dest, placed, |best|);
      }
    }
  }

  /** Placing one more reclaim keeps the placements feasible and in order, and can be undone. */
  lemma {:induction false} FollowsNext(order: seq<nat>, position: nat, current: seq<Placement>, p: Placement)
    requires position < |order| && Follows(order[..position], current) && p.candidate == order[position]
    ensures Follows(order[..position + 1], current + [p])
  {
    FollowsTake(order[..position], current, p);
    assert order[..position + 1] == order[..position] + [p.candidate];
  }

  lemma {:induction false} HoldUndone(layout: Layout, pending: seq<Reclaim>, held: map<Path, Usage>, p: Placement)
    requires Coherent(layout.volumeOf, held) && CanGo(layout, pending, held, p)
    ensures held == Applied(layout.volumeOf, Hold(layout, pending, held, p), p.dest.path, -pending[p.candidate].Size())
  {
    AppliedUndone(layout.volumeOf, held, p.dest.path, pending[p.candidate].Size());
  }

  lemma {:induction false} ExploredFrom(layout: Layout, pending: seq<Reclaim>, order: seq<nat>, position: nat, held: map<Path, Usage>, dest: Slot, placed: nat, best: nat)
    requires position < |order| && Covered(layout, pending, order[position + 1..], Hold(layout, pending, held, Placement(order[position], dest)), placed + 1, best)
    ensures Explored(layout, pending, order[position..], held, dest, placed, best)
  {
    assert order[position..][0] == order[position] && order[position..][1..] == order[position + 1..];
  }

  lemma {:induction false} CanExtend(layout: Layout, pending: seq<Reclaim>, start: map<Path, Usage>, order: seq<nat>, position: nat, current: seq<Placement>, held: map<Path, Usage>, dest: Slot)
    requires held == HoldPlacements(layout, pending, start, current) && position < |order| && order[position] < |pending| && Follows(order[..position], current)
    requires Coherent(layout.volumeOf, start) && Feasible(layout, pending, start, current)
    requires Offered(layout, held, pending[order[position]], dest)
    ensures var p := Placement(order[position], dest);
            && Follows(order[..position + 1], current + [p])
            && Feasible(layout, pending, start, current + [p])
            && HoldPlacements(layout, pending, start, current + [p]) == Hold(layout, pending, held, p)
            && HoldPlacements(layout, pending, start, current + [p]) == Applied(layout.volumeOf, held, dest.path, pending[order[position]].Size())
            && held == Applied(layout.volumeOf, Hold(layout, pending, held, p), dest.path, -pending[order[position]].Size())
  {
    var c := order[position];
    var p := Placement(c, dest);
    HotOptionsExact(Slots(layout.tiers), held, pending[c].Media(), pending[c].Size(), dest);
    FeasibleAppend(layout, pending, start, current, p);
    FollowsNext(order, position, current, p);
    HoldAllCoherent(layout, pending, start, current);
    HoldUndone(layout, pending, held, p);
  }

  /** At most every reclaim still to come can be placed. */
  lemma {:induction false} AtMostTheRest(layout: Layout, pending: seq<Reclaim>, rest: seq<nat>, usage: map<Path, Usage>, placed: nat)
    ensures forall best :: placed + |rest| <= best ==> Covered(layout, pending, rest, usage, placed, best)
  {
    forall ps: seq<Placement> | Follows(rest, ps)
      ensures |ps| <= |rest|
    {
      FollowsMembers(rest, ps);
    }
  }

  /** The options a search node branches on: the hot paths with room, tightest first. */
  method SortedOptions(tiers: seq<Tier>, usage: map<Path, Usage>, r: Reclaim) returns (options: seq<HotOption>)
    ensures multiset(options) == multiset(OptionsOf(tiers, usage, r))
    ensures forall o :: o in options <==> o in OptionsOf(tiers, usage, r)
    ensures SortedBy(options, (a: HotOption, b: HotOption) => a.remainingRoom < b.remainingRoom)
    ensures |options| <= |Slots(tiers)|
  {
    var unsorted := HotDestinationOptions(tiers, usage, r.Media(), r.Size());
    options := SortSlice(unsorted, (a: HotOption, b: HotOption) => a.remainingRoom < b.remainingRoom);
    SamePermutationMembers(options, unsorted);
    HotOptionsBounded(Slots(tiers), usage, r.Media(), r.Size());
  }

  /** What can be placed first is among the options. */
  lemma {:induction false} ChoiceOffered(layout: Layout, pending: seq<Reclaim>, usage: map<Path, Usage>, options: seq<HotOption>, p: Placement) returns (i: nat)
    requires CanGo(layout, pending, usage, p) && Offers(layout, usage, pending[p.candidate], options)
    ensures i < |options| && p == Placement(p.candidate, options[i].slot)
  {
    var r := pending[p.candidate];
    HotOptionsExact(Slots(layout.tiers), usage, r.Media(), r.Size(), p.dest);
    var o :| o in OptionsOf(layout.tiers, usage, r) && o.slot == p.dest;
    i :| 0 <= i < |options| && options[i] == o;
  }

  /** Branching on every option for the next reclaim, and on leaving it out, leaves nothing uncovered. */
  lemma {:induction false} EveryFirstChoice(layout: Layout, pending: seq<Reclaim>, rest: seq<nat>, usage: map<Path, Usage>, options: seq<HotOption>, placed: nat, best: nat)
    requires rest != [] && rest[0] < |pending|
    requires Offers(layout, usage, pending[rest[0]], options)
    requires AllExplored(layout, pending, rest, usage, options, placed, best)
    requires Covered(layout, pending, rest[1..], usage, placed, best)
    ensures Covered(layout, pending, rest, usage, placed, best)
  {
    forall ps: seq<Placement> | Follows(rest, ps) && Feasible(layout, pending, usage, ps)
      ensures placed + |ps| <= best
    {
      if ps == [] {
        assert Follows(rest[1..], ps);
      } else if ps[0].candidate == rest[0] && Follows(rest[1..], ps[1..]) {
        var i := ChoiceOffered(layout, pending, usage, options, ps[0]);
        assert Explored(layout, pending, rest, usage, options[i].slot, placed, best);
        assert placed + 1 + |ps[1..]| <= best;
      }
    }
  }
}
