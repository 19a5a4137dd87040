/** What becomes of each ready group, told by the input's own fields (internal/torrents/plan.go). */
module DownloadsDecided {
  import opened DiskUsage
  import opened PlannerModel
  import opened PlanContents
  import opened DownloadsPlan

  /** Every member is about to be removed. */
  ghost predicate LeftToRemoval(input: DownloadsInput, g: Group) {
    input.leave != {} && forall h :: h in g.hashes ==> h in input.leave
  }

  /** The content is not strictly inside the save path, or begins with a name that two dots lead. */
  ghost predicate OutsideSave(g: Group) {
    !(g.save <= g.content) || |g.content| == |g.save| || ".." <= g.content[|g.save|]
  }

  /** A usable and visible seed path has room for the group under the ceiling, and nothing where it would land. */
  ghost predicate CanGoTo(input: DownloadsInput, usage: map<Path, Usage>, g: Group, t: Tier, p: Path, ceiling: real) {
    && t in input.tiers && t.role == Cold && p in t.paths && p in input.usage && p !in input.unseen
    && p in usage && RoomFor(usage[p], g.size, ceiling)
    && p in input.placeOf && g.tierPath in input.placeOf && input.placeOf[g.tierPath] <= g.content
    && input.placeOf[p] + g.content[|input.placeOf[g.tierPath]|..] !in input.existing
  }

  ghost predicate NowhereUnder(input: DownloadsInput, usage: map<Path, Usage>, g: Group, ceiling: Tier -> real) {
    forall t, p :: !CanGoTo(input, usage, g, t, p, ceiling(t))
  }

  /** It can go there under that kind of ceiling, and nowhere fuller. */
  ghost predicate FullestThere(input: DownloadsInput, usage: map<Path, Usage>, g: Group, s: SeedPath, ceiling: Tier -> real) {
    && CanGoTo(input, usage, g, s.tier, s.path, ceiling(s.tier))
    && forall t, p :: CanGoTo(input, usage, g, t, p, ceiling(t)) ==> usage[p].UsedPercent() <= usage[s.path].UsedPercent()
  }

  /** The fullest seed path under its target, or with none there the fullest under its max. */
  ghost predicate GoesToFullest(input: DownloadsInput, usage: map<Path, Usage>, g: Group, s: SeedPath) {
    || FullestThere(input, usage, g, s, (t: Tier) => t.target)
    || (NowhereUnder(input, usage, g, (t: Tier) => t.target) && FullestThere(input, usage, g, s, (t: Tier) => t.max))
  }

  // ----- the model's terms in these

  lemma {:induction false} LandsWhere(input: DownloadsInput, usage: map<Path, Usage>, g: Group, s: SeedPath, ceiling: Tier -> real)
    requires g.tierPath in input.placeOf && input.placeOf[g.tierPath] <= g.save && RelContent(g).Some? && s.path in input.placeOf
    requires IsSeed(input, s)
    ensures MayLand(input, usage, g, s, ceiling) <==> CanGoTo(input, usage, g, s.tier, s.path, ceiling(s.tier))
  {
    Rebased(input.placeOf, g, s);
    if s.path in usage {
      FitsIsRoom(usage[s.path], g.size, ceiling(s.tier));
    }
  }

  lemma {:induction false} NoneGoIsNowhere(input: DownloadsInput, usage: map<Path, Usage>, g: Group, seeds: seq<SeedPath>, ceiling: Tier -> real, named: Tier -> real)
    requires g.tierPath in input.placeOf && input.placeOf[g.tierPath] <= g.save && RelContent(g).Some?
    requires Seeds(input, seeds) && (forall s :: s in seeds ==> s.path in input.placeOf) && NoneGo(input, usage, g, seeds, ceiling)
    requires forall t :: ceiling(t) == named(t)
    ensures NowhereUnder(input, usage, g, named)
  {
    forall t, p
      ensures !CanGoTo(input, usage, g, t, p, named(t))
    {
      if CanGoTo(input, usage, g, t, p, named(t)) {
        var s := SeedPath(t, p);
        assert IsSeed(input, s);
        LandsWhere(input, usage, g, s, ceiling);
      }
    }
  }

  lemma {:induction false} FullestIsThere(input: DownloadsInput, usage: map<Path, Usage>, g: Group, seeds: seq<SeedPath>, ceiling: Tier -> real, named: Tier -> real, s: SeedPath)
    requires g.tierPath in input.placeOf && input.placeOf[g.tierPath] <= g.save && RelContent(g).Some?
    requires Seeds(input, seeds) && (forall s :: s in seeds ==> s.path in input.placeOf) && FullestOf(input, usage, g, seeds, ceiling, s)
    requires forall t :: ceiling(t) == named(t)
    ensures FullestThere(input, usage, g, s, named)
  {
    LandsWhere(input, usage, g, s, ceiling);
    forall t, p | CanGoTo(input, usage, g, t, p, named(t))
      ensures usage[p].UsedPercent() <= usage[s.path].UsedPercent()
    {
      var o := SeedPath(t, p);
      assert IsSeed(input, o);
      LandsWhere(input, usage, g, o, ceiling);
    }
  }

  lemma {:induction false} BestIsFullest(input: DownloadsInput, usage: map<Path, Usage>, g: Group, seeds: seq<SeedPath>, s: SeedPath)
    requires g.tierPath in input.placeOf && input.placeOf[g.tierPath] <= g.save && RelContent(g).Some?
    requires Seeds(input, seeds) && (forall s :: s in seeds ==> s.path in input.placeOf) && BestFor(input, usage, g, seeds, s)
    ensures GoesToFullest(input, usage, g, s)
  {
    if FullestOf(input, usage, g, seeds, TargetCeiling, s) {
      FullestIsThere(input, usage, g, seeds, TargetCeiling, (t: Tier) => t.target, s);
    } else {
      NoneGoIsNowhere(input, usage, g, seeds, TargetCeiling, (t: Tier) => t.target);
      FullestIsThere(input, usage, g, seeds, MaxCeiling, (t: Tier) => t.max, s);
    }
  }

  lemma {:induction false} SkippedIs(input: DownloadsInput, g: Group)
    ensures Skipped(input, g) <==> LeftToRemoval(input, g) || OutsideSave(g)
  {
  }

  // ----- every group is decided

  /** The usage the group at turn k of the plan is decided on. */
  ghost function UsageAt(input: DownloadsInput, entries: seq<DownloadMove>, k: nat): map<Path, Usage>
    requires k <= |entries|
  {
    After(input.volumeOf, input.usage, Moves(entries[..k]))
  }

  /** Entry k moves the group, to the fullest path there is for it. */
  ghost predicate MovedAt(input: DownloadsInput, entries: seq<DownloadMove>, k: nat, g: Group)
    requires k <= |entries|
  {
    k < |entries| && entries[k].group == g && GoesToFullest(input, UsageAt(input, entries, k), g, entries[k].seed)
  }

  /** What is planned for it, or why nothing is. */
  ghost predicate DecidedAt(input: DownloadsInput, entries: seq<DownloadMove>, k: nat, g: Group)
    requires k <= |entries|
  {
    if LeftToRemoval(input, g) || OutsideSave(g) then !exists i :: 0 <= i < |entries| && entries[i].group == g
    else MovedAt(input, entries, k, g) || NowhereUnder(input, UsageAt(input, entries, k), g, (t: Tier) => t.max)
  }

  lemma {:induction false} PlansGrow(input: DownloadsInput, seeds: seq<SeedPath>, groups: seq<Group>, plans: seq<seq<DownloadMove>>, i: nat, n: nat)
    requires WellPlaced(input, groups) && (forall s :: s in seeds ==> s.path in input.placeOf)
    requires PlannedInTurn(input, seeds, groups, plans, |groups|) && i <= n <= |groups|
    ensures plans[i] <= plans[n]
    decreases n
  {
    if i < n {
      PlansGrow(input, seeds, groups, plans, i, n - 1);
      TurnDecided(input, seeds, groups, plans, n - 1);
      var before, after := plans[n - 1], plans[n];
      assert after == before || exists m :: after == before + [m];
    }
  }

  lemma {:induction false} TurnInPlan(input: DownloadsInput, seeds: seq<SeedPath>, g: Group, before: seq<DownloadMove>, after: seq<DownloadMove>, entries: seq<DownloadMove>)
    requires g.tierPath in input.placeOf && input.placeOf[g.tierPath] <= g.save && !Skipped(input, g)
    requires Seeds(input, seeds) && (forall s :: s in seeds ==> s.path in input.placeOf)
    requires Decided(input, seeds, g, before, after) && after <= entries && |before| <= |entries|
    ensures MovedAt(input, entries, |before|, g) || NowhereUnder(input, UsageAt(input, entries, |before|), g, (t: Tier) => t.max)
  {
    var usage := After(input.volumeOf, input.usage, Moves(before));
    if after == before {
      assert entries[..|before|] == before;
      NoneGoIsNowhere(input, usage, g, seeds, MaxCeiling, (t: Tier) => t.max);
    } else {
      var s :| s in seeds && BestFor(input, usage, g, seeds, s) && after == before + [MoveFor(input.placeOf, g, s)];
      assert entries[..|before|] == after[..|before|] == before;
      assert entries[|before|] == after[|before|];
      BestIsFullest(input, usage, g, seeds, s);
    }
  }

  lemma {:induction false} SkippedNotMoved(input: DownloadsInput, groups: seq<Group>, entries: seq<DownloadMove>, g: Group)
    requires WellPlaced(input, groups) && EachGood(input, groups, entries) && Skipped(input, g)
    ensures !exists i :: 0 <= i < |entries| && entries[i].group == g
  {
    forall i | 0 <= i < |entries|
      ensures entries[i].group != g
    {
      assert GoodMove(input, groups, entries[i]);
    }
  }

  /** Every group whose members are all to be removed, or whose content is not inside its save path, stays; every
      other one is moved to the fullest path there is for it at its turn, or then has none. */
  lemma {:induction false} EachIsDecided(input: DownloadsInput, groups: seq<Group>, entries: seq<DownloadMove>, i: nat) returns (k: nat)
    requires ValidTiers(input.tiers) && WellPlaced(input, groups) && Planned(input, groups, entries) && i < |groups|
    ensures k <= |entries| && DecidedAt(input, entries, k, groups[i])
  {
    var seeds: seq<SeedPath>, plans: seq<seq<DownloadMove>> :|
      && Seeds(input, seeds) && (forall s :: s in seeds ==> s.path in input.placeOf)
      && PlannedInTurn(input, seeds, groups, plans, |groups|) && plans[|groups|] == entries;
    var g := groups[i];
    SkippedIs(input, g);
    PlansGrow(input, seeds, groups, plans, i, |groups|);
    PlansGrow(input, seeds, groups, plans, i + 1, |groups|);
    k := |plans[i]|;
    if Skipped(input, g) {
      PlanIsGood(input, groups, entries);
      SkippedNotMoved(input, groups, entries, g);
    } else {
      TurnDecided(input, seeds, groups, plans, i);
      TurnInPlan(input, seeds, g, plans[i], plans[i + 1], entries);
    }
  }
}
