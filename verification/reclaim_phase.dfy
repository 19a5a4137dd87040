/** One reclaim phase: allocateReclaims and attemptReclaims (internal/planner). */
module ReclaimPhase {
  import opened DiskUsage
  import opened PlannerModel
  import opened Destinations
  import opened Reclaims
  import opened Sorting
  import opened BranchAndBound

  /** The list without the elements whose index is in gone. */
  function Dropping<T>(s: seq<T>, gone: set<nat>): seq<T> {
    if s == [] then []
    else Dropping(s[..|s| - 1], gone) + if |s| - 1 in gone then [] else [s[|s| - 1]]
  }

  function Candidates(ps: seq<Placement>): set<nat> {
    set p | p in ps :: p.candidate
  }

  predicate GoesBefore(pending: seq<Reclaim>, counts: seq<nat>, a: nat, b: nat) {
    a < |counts| == |pending| && b < |counts|
    && (counts[a] < counts[b] || (counts[a] == counts[b] && pending[a].Size() > pending[b].Size()))
  }

  /** Exactly the reclaims with a hot path, fewest paths first and then largest first. */
  ghost predicate IsSearchOrder(layout: Layout, pending: seq<Reclaim>, usage: map<Path, Usage>, order: seq<nat>) {
    && NoRepeats(order)
    && (forall i: nat :: i in order <==> i < |pending| && OptionsOf(layout.tiers, usage, pending[i]) != [])
    && (forall k :: 0 <= k < |order| ==> order[k] < |pending|)
    && forall i, j :: 0 <= i < j < |order| ==> NotAfter(layout, usage, pending[order[i]], pending[order[j]])
  }

  ghost predicate NotAfter(layout: Layout, usage: map<Path, Usage>, a: Reclaim, b: Reclaim) {
    var x, y := |OptionsOf(layout.tiers, usage, a)|, |OptionsOf(layout.tiers, usage, b)|;
    x < y || (x == y && a.Size() >= b.Size())
  }

  /** The order the search takes reclaims in. */
  method SearchOrder(layout: Layout, pending: seq<Reclaim>, usage: map<Path, Usage>) returns (order: seq<nat>)
    ensures IsSearchOrder(layout, pending, usage, order)
  {
    var counts: seq<nat> := [];
    var found: seq<nat> := [];
    for i := 0 to |pending|
      invariant |counts| == i && forall k :: 0 <= k < i ==> counts[k] == |OptionsOf(layout.tiers, usage, pending[k])|
      invariant NoRepeats(found)
      invariant forall k: nat :: k in found <==> k < i && OptionsOf(layout.tiers, usage, pending[k]) != []
    {
      var options := HotDestinationOptions(layout.tiers, usage, pending[i].Media(), pending[i].Size());
      counts := counts + [|options|];
      if |options| > 0 {
        assert forall k :: 0 <= k < |found| ==> found[k] in found;
        found := found + [i];
      }
    }
    order := SortSlice(found, (a: nat, b: nat) => GoesBefore(pending, counts, a, b));
    SamePermutationMembers(order, found);
    PermutedNoRepeats(found, order);
    assert forall i :: 0 <= i < |order| ==> order[i] in found;
    forall i, j | 0 <= i < j < |order|
      ensures NotAfter(layout, usage, pending[order[i]], pending[order[j]])
    {
      assert !GoesBefore(pending, counts, order[j], order[i]);
      InOrder(layout, pending, usage, counts, order[i], order[j]);
    }
  }

  lemma {:induction false} InOrder(layout: Layout, pending: seq<Reclaim>, usage: map<Path, Usage>, counts: seq<nat>, a: nat, b: nat)
    requires a < |pending| && b < |pending| == |counts| && !GoesBefore(pending, counts, b, a)
    requires counts[a] == |OptionsOf(layout.tiers, usage, pending[a])| && counts[b] == |OptionsOf(layout.tiers, usage, pending[b])|
    ensures NotAfter(layout, usage, pending[a], pending[b])
  {
  }

  /** The most reclaims placed that the search finds: never fewer than greedily, and - unless it spends its
      whole node budget, which a small enough tree cannot - as many as any placements in the search order. */
  method AllocateReclaims(layout: Layout, volumes: Volumes, pending: seq<Reclaim>, usage: map<Path, Usage>)
    returns (best: seq<Placement>, stillPending: seq<Reclaim>, ghost order: seq<nat>, ghost nodes: nat)
    requires IsGrouping(volumes, layout.volumeOf) && Coherent(layout.volumeOf, usage)
    ensures Feasible(layout, pending, usage, best) && Distinct(best)
    ensures |best| >= PlaceableCount(layout, pending, usage)
    ensures stillPending == Dropping(pending, Candidates(best))
    ensures |best| < |pending| ==> IsSearchOrder(layout, pending, usage, order)
    ensures nodes <= TreeSize(|Slots(layout.tiers)|, |order|)
    ensures |best| < |pending| && nodes < SEARCH_BUDGET ==>
              forall ps: seq<Placement> :: Follows(order, ps) && Feasible(layout, pending, usage, ps) ==> |ps| <= |best|
  {
    best := GreedyReclaimPlacements(layout, volumes, pending, usage);
    GreedyCount(layout, pending, Indices(|pending|), usage);
    GreedyFeasible(layout, pending, pending, Indices(|pending|), usage);
    order, nodes := [], 0;
    if |best| < |pending| {
      var o := SearchOrder(layout, pending, usage);
      assert forall k :: 0 <= k < |o| ==> o[k] in o;
      assert o[..0] == [] && o[0..] == o;
      var search := new Search(layout, volumes, pending, usage, o, best);
      search.Run(0, TreeSize(|Slots(layout.tiers)|, |o|));
      best := search.best;
      order, nodes := o, search.nodes;
    }

    FeasibleInRange(layout, pending, usage, best);
    stillPending := NotPlaced(pending, best);
  }

  /** What the placements leave pending, in the same order. */
  method NotPlaced(pending: seq<Reclaim>, best: seq<Placement>) returns (stillPending: seq<Reclaim>)
    requires forall k :: 0 <= k < |best| ==> best[k].candidate < |pending|
    ensures stillPending == Dropping(pending, Candidates(best))
  {
    var placed := new bool[|pending|](_ => false);
    for k := 0 to |best|
      invariant forall i :: 0 <= i < |pending| ==> (placed[i] <==> exists j :: 0 <= j < k && best[j].candidate == i)
    {
      placed[best[k].candidate] := true;
    }
    stillPending := [];
    for i := 0 to |pending|
      invariant stillPending == Dropping(pending[..i], Candidates(best))
    {
      assert pending[..i + 1][..i] == pending[..i];
      assert placed[i] <==> i in Candidates(best);
      if !placed[i] {
        stillPending := stillPending + [pending[i]];
      }
    }
    assert pending[..|pending|] == pending;
  }

  lemma {:induction false} FeasibleInRange(layout: Layout, pending: seq<Reclaim>, usage: map<Path, Usage>, ps: seq<Placement>)
    requires Feasible(layout, pending, usage, ps)
    ensures forall k :: 0 <= k < |ps| ==> ps[k].candidate < |pending|
    decreases |ps|
  {
    if ps != [] {
      FeasibleInRange(layout, pending, Hold(layout, pending, usage, ps[0]), ps[1..]);
      assert forall k :: 0 < k < |ps| ==> ps[k] == ps[1..][k - 1];
    }
  }

  // ----- what a phase takes out of the pending list

  function Picked<T>(s: seq<T>, indices: seq<nat>): seq<T>
    requires forall k :: 0 <= k < |indices| ==> indices[k] < |s|
  {
    seq(|indices|, k requires 0 <= k < |indices| => s[indices[k]])
  }

  ghost predicate Selects<T>(s: seq<T>, indices: seq<nat>) {
    NoRepeats(indices) && forall k :: 0 <= k < |indices| ==> indices[k] < |s|
  }

  function AsSet(indices: seq<nat>): set<nat> {
    set i | i in indices
  }

  /** Picking some elements out and keeping the rest loses and duplicates nothing. */
  lemma {:induction false} OneMoreIndex(before: seq<nat>, i: nat)
    ensures AsSet(before + [i]) == AsSet(before) + {i}
  {
  }

  lemma {:induction false} PickedOrLeft<T>(s: seq<T>, indices: seq<nat>)
    requires Selects(s, indices)
    ensures multiset(Picked(s, indices)) + multiset(Dropping(s, AsSet(indices))) == multiset(s)
    ensures |indices| + |Dropping(s, AsSet(indices))| == |s|
    decreases |indices|
  {
    if indices == [] {
      DroppingNone(s);
      assert AsSet(indices) == {};
    } else {
      var n := |indices| - 1;
      var before, i := indices[..n], indices[n];
      PickedOrLeft(s, before);
      assert i !in before;
      OneMoreIndex(before, i);
      assert indices == before + [i];
      DroppingOne(s, AsSet(before), i);
      assert Picked(s, indices) == Picked(s, before) + [s[i]];
    }
  }

  lemma {:induction false} DroppingNone<T>(s: seq<T>)
    ensures Dropping(s, {}) == s
    decreases |s|
  {
    if s != [] {
      DroppingNone(s[..|s| - 1]);
    }
  }

  lemma {:induction false} DroppingOne<T>(s: seq<T>, gone: set<nat>, i: nat)
    requires i < |s| && i !in gone
    ensures multiset(Dropping(s, gone)) == multiset(Dropping(s, gone + {i})) + multiset{s[i]}
    ensures |Dropping(s, gone)| == |Dropping(s, gone + {i})| + 1
    decreases |s|
  {
    var n := |s| - 1;
    var front := s[..n];
    if i == n {
      DroppingBeyond(front, gone, i);
      assert Dropping(s, gone) == Dropping(front, gone) + [s[n]];
      assert Dropping(s, gone + {i}) == Dropping(front, gone);
    } else {
      DroppingOne(front, gone, i);
      assert front[i] == s[i];
      var last := if n in gone then [] else [s[n]];
      assert Dropping(s, gone) == Dropping(front, gone) + last;
      assert Dropping(s, gone + {i}) == Dropping(front, gone + {i}) + last;
    }
  }

  lemma {:induction false} DroppingBeyond<T>(s: seq<T>, gone: set<nat>, i: nat)
    requires |s| <= i
    ensures Dropping(s, gone + {i}) == Dropping(s, gone)
    decreases |s|
  {
    if s != [] {
      DroppingBeyond(s[..|s| - 1], gone, i);
    }
  }

  // ----- attemptReclaims

  /** The move planned for a reclaim. */
  function ReclaimEntry(r: Reclaim, dest: Slot, phase: nat): MoveEntry {
    MoveEntry(r.eval.item, r.fromTier.name, r.fromTier.role, r.eval.item.root,
              dest.tier.name, dest.path, phase, dest.tier.EffectiveMax())
  }

  function ReclaimEntries(pending: seq<Reclaim>, ps: seq<Placement>, phase: nat): seq<MoveEntry>
    requires forall k :: 0 <= k < |ps| ==> ps[k].candidate < |pending|
  {
    seq(|ps|, k requires 0 <= k < |ps| => ReclaimEntry(pending[ps[k].candidate], ps[k].dest, phase))
  }

  lemma {:induction false} HoldAllAppend(layout: Layout, pending: seq<Reclaim>, usage: map<Path, Usage>, ps: seq<Placement>, p: Placement)
    ensures HoldPlacements(layout, pending, usage, ps + [p]) == Hold(layout, pending, HoldPlacements(layout, pending, usage, ps), p)
    decreases |ps|
  {
    if ps == [] {
      assert ps + [p] == [p];
    } else {
      assert (ps + [p])[1..] == ps[1..] + [p];
      HoldAllAppend(layout, pending, Hold(layout, pending, usage, ps[0]), ps[1..], p);
    }
  }

  lemma {:induction false} FeasibleAt(layout: Layout, pending: seq<Reclaim>, usage: map<Path, Usage>, ps: seq<Placement>, k: nat)
    requires Feasible(layout, pending, usage, ps) && k < |ps|
    ensures CanGo(layout, pending, HoldPlacements(layout, pending, usage, ps[..k]), ps[k])
    decreases k
  {
    if k > 0 {
      FeasibleAt(layout, pending, Hold(layout, pending, usage, ps[0]), ps[1..], k - 1);
      assert ps[..k][1..] == ps[1..][..k - 1];
    }
  }

  /** Holding room for placements is holding room for the entries made from them. */
  lemma {:induction false} ReservedIsHeld(layout: Layout, pending: seq<Reclaim>, usage: map<Path, Usage>, ps: seq<Placement>, phase: nat, k: nat)
    requires forall i :: 0 <= i < |ps| ==> ps[i].candidate < |pending|
    requires k <= |ps|
    ensures Reserved(layout.volumeOf, usage, ReclaimEntries(pending, ps, phase)[..k]) == HoldPlacements(layout, pending, usage, ps[..k])
    decreases k
  {
    if k > 0 {
      var es := ReclaimEntries(pending, ps, phase)[..k];
      assert es[..k - 1] == ReclaimEntries(pending, ps, phase)[..k - 1];
      assert ps[..k] == ps[..k - 1] + [ps[k - 1]];
      ReservedIsHeld(layout, pending, usage, ps, phase, k - 1);
      HoldAllAppend(layout, pending, usage, ps[..k - 1], ps[k - 1]);
    }
  }

  /** Entries of one phase: each fits what is left when every earlier one of the phase has its room,
      and nothing the phase frees is counted. */
  ghost predicate OnePhase(volumeOf: map<Path, nat>, usage: map<Path, Usage>, entries: seq<MoveEntry>, phase: nat) {
    forall k :: 0 <= k < |entries| ==>
                  && entries[k].phase == phase
                  && Admits(Reserved(volumeOf, usage, entries[..k]), entries[k])
  }

  /** A move of r to a hot path that may hold it, under that path's ceiling. */
  ghost predicate MovesToHot(e: MoveEntry, r: Reclaim, layout: Layout) {
    exists s :: s in Slots(layout.tiers) && s.tier.role == Hot && s.tier.Accepts(r.Media()) && e == ReclaimEntry(r, s, e.phase)
  }

  /** Places reclaims in one phase: at least as many as placing them greedily would. */
  method AttemptReclaims(layout: Layout, volumes: Volumes, pending: seq<Reclaim>, working: UsageTable, phase: nat)
    returns (entries: seq<MoveEntry>, stillPending: seq<Reclaim>, progressed: bool, ghost placed: seq<nat>)
    requires IsGrouping(volumes, layout.volumeOf) && Coherent(layout.volumeOf, working.usage)
    modifies working
    ensures working.usage == After(layout.volumeOf, old(working.usage), entries)
    ensures OnePhase(layout.volumeOf, old(working.usage), entries, phase)
    ensures progressed <==> entries != []
    ensures Selects(pending, placed) && |entries| == |placed|
    ensures forall k :: 0 <= k < |entries| ==> MovesToHot(entries[k], pending[placed[k]], layout)
    ensures stillPending == Dropping(pending, AsSet(placed))
    ensures |entries| >= PlaceableCount(layout, pending, old(working.usage))
    ensures MostPlaced(layout, pending, old(working.usage), |entries|)
  {
    ghost var start := working.usage;
    var placements;
    ghost var order, nodes;
    placements, stillPending, order, nodes := AllocateReclaims(layout, volumes, pending, working.usage);
    FeasibleInRange(layout, pending, start, placements);
    PlacedSelect(pending, placements);
    PlacedEntries(layout, pending, start, placements, phase);
    IsMost(layout, pending, start, placements, order, nodes);
    placed := PlacedIndices(placements);
    entries := MakeEntries(layout, volumes, pending, placements, working, phase);
    progressed := entries != [];
  }

  /** No placements that take the reclaims up in that order are more. */
  ghost predicate NoneLonger(layout: Layout, pending: seq<Reclaim>, usage: map<Path, Usage>, order: seq<nat>, n: nat) {
    forall ps: seq<Placement> :: Follows(order, ps) && Feasible(layout, pending, usage, ps) ==> |ps| <= n
  }

  /** n is as many as can be placed: all of them, or as many as any placements in a search order - unless a full
      search of it could take 50 000 nodes. */
  ghost predicate MostPlaced(layout: Layout, pending: seq<Reclaim>, usage: map<Path, Usage>, n: nat) {
    n == |pending| || exists order :: MostInOrder(layout, pending, usage, order, n)
  }

  ghost predicate MostInOrder(layout: Layout, pending: seq<Reclaim>, usage: map<Path, Usage>, order: seq<nat>, n: nat) {
    IsSearchOrder(layout, pending, usage, order) && (TreeSize(|Slots(layout.tiers)|, |order|) < 50_000 ==> NoneLonger(layout, pending, usage, order, n))
  }

  lemma {:induction false} IsMost(layout: Layout, pending: seq<Reclaim>, usage: map<Path, Usage>, best: seq<Placement>, order: seq<nat>, nodes: nat)
    requires Distinct(best) && forall k :: 0 <= k < |best| ==> best[k].candidate < |pending|
    requires |best| < |pending| ==> IsSearchOrder(layout, pending, usage, order)
    requires nodes <= TreeSize(|Slots(layout.tiers)|, |order|)
    requires |best| < |pending| && nodes < SEARCH_BUDGET ==> NoneLonger(layout, pending, usage, order, |best|)
    ensures MostPlaced(layout, pending, usage, |best|)
  {
    DistinctBounded(best, |pending|);
    if |best| < |pending| {
      assert MostInOrder(layout, pending, usage, order, |best|);
    }
  }

  /** Placements of different reclaims are no more than there are reclaims. */
  lemma {:induction false} DistinctBounded(ps: seq<Placement>, n: nat)
    requires Distinct(ps) && forall k :: 0 <= k < |ps| ==> ps[k].candidate < n
    ensures |ps| <= n
  {
    CandidateCount(ps);
    CandidatesBelow(Candidates(ps), n);
  }

  lemma {:induction false} CandidateCount(ps: seq<Placement>)
    requires Distinct(ps)
    ensures |Candidates(ps)| == |ps|
    decreases |ps|
  {
    if ps != [] {
      var n := |ps| - 1;
      CandidateCount(ps[..n]);
      assert Candidates(ps) == Candidates(ps[..n]) + {ps[n].candidate};
    }
  }

  lemma {:induction false} CandidatesBelow(s: set<nat>, n: nat)
    requires forall x :: x in s ==> x < n
    ensures |s| <= n
  {
    if n > 0 {
      CandidatesBelow(s - {n - 1}, n - 1);
    } else {
      assert s == {};
    }
  }

  ghost function PlacedIndices(ps: seq<Placement>): seq<nat> {
    seq(|ps|, k requires 0 <= k < |ps| => ps[k].candidate)
  }

  /** The loop of attemptReclaims: records each placement as a move, and in the projected usage. */
  method MakeEntries(layout: Layout, volumes: Volumes, pending: seq<Reclaim>, placements: seq<Placement>, working: UsageTable, phase: nat)
    returns (entries: seq<MoveEntry>)
    requires IsGrouping(volumes, layout.volumeOf)
    requires forall k :: 0 <= k < |placements| ==> placements[k].candidate < |pending|
    modifies working
    ensures entries == ReclaimEntries(pending, placements, phase)
    ensures working.usage == After(layout.volumeOf, old(working.usage), entries)
  {
    entries := [];
    for k := 0 to |placements|
      invariant entries == ReclaimEntries(pending, placements, phase)[..k]
      invariant working.usage == After(layout.volumeOf, old(working.usage), entries)
    {
      var r, dest := pending[placements[k].candidate], placements[k].dest;
      var e := ReclaimEntry(r, dest, phase);
      AfterAppend(layout.volumeOf, old(working.usage), entries, e);
      entries := entries + [e];
      CountMove(volumes, layout.volumeOf, working, e);
    }
  }

  lemma {:induction false} PlacedEntry(layout: Layout, pending: seq<Reclaim>, usage: map<Path, Usage>, ps: seq<Placement>, phase: nat, k: nat)
    requires Feasible(layout, pending, usage, ps) && k < |ps|
    requires forall i :: 0 <= i < |ps| ==> ps[i].candidate < |pending|
    ensures Admits(Reserved(layout.volumeOf, usage, ReclaimEntries(pending, ps, phase)[..k]), ReclaimEntries(pending, ps, phase)[k])
    ensures MovesToHot(ReclaimEntries(pending, ps, phase)[k], pending[ps[k].candidate], layout)
  {
    FeasibleAt(layout, pending, usage, ps, k);
    ReservedIsHeld(layout, pending, usage, ps, phase, k);
    var s := ps[k].dest;
    assert s in Slots(layout.tiers) && s.tier.role == Hot;
  }

  lemma {:induction false} PlacedSelect(pending: seq<Reclaim>, ps: seq<Placement>)
    requires Distinct(ps) && forall k :: 0 <= k < |ps| ==> ps[k].candidate < |pending|
    ensures Selects(pending, PlacedIndices(ps)) && AsSet(PlacedIndices(ps)) == Candidates(ps)
  {
    assert forall k :: 0 <= k < |ps| ==> PlacedIndices(ps)[k] == ps[k].candidate;
    forall c | c in Candidates(ps)
      ensures c in AsSet(PlacedIndices(ps))
    {
      var k :| 0 <= k < |ps| && ps[k].candidate == c;
      assert PlacedIndices(ps)[k] == c;
    }
  }

  lemma {:induction false} PlacedEntries(layout: Layout, pending: seq<Reclaim>, usage: map<Path, Usage>, ps: seq<Placement>, phase: nat)
    requires Feasible(layout, pending, usage, ps)
    requires forall k :: 0 <= k < |ps| ==> ps[k].candidate < |pending|
    ensures OnePhase(layout.volumeOf, usage, ReclaimEntries(pending, ps, phase), phase)
    ensures forall k :: 0 <= k < |ps| ==> MovesToHot(ReclaimEntries(pending, ps, phase)[k], pending[PlacedIndices(ps)[k]], layout)
  {
    forall k | 0 <= k < |ps|
      ensures Admits(Reserved(layout.volumeOf, usage, ReclaimEntries(pending, ps, phase)[..k]), ReclaimEntries(pending, ps, phase)[k])
      ensures MovesToHot(ReclaimEntries(pending, ps, phase)[k], pending[ps[k].candidate], layout)
    {
      PlacedEntry(layout, pending, usage, ps, phase, k);
    }
  }
}
