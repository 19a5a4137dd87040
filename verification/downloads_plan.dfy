/** Planning downloads off the download drive (internal/torrents/plan.go). Locations are lists of names
    from the root. */
module DownloadsPlan {
  import opened DiskUsage
  import opened PlannerModel
  import opened Sorting
  import opened Ledger
  import opened Mover
  import PlanRuns
  import ReservedRuns

  type Place = seq<string>

  /** Ready downloads sharing one content path: they move together. */
  datatype Group = Group(hashes: seq<string>, size: int, tierPath: Path, save: Place, content: Place)

  /** A seed storage path a download could go to. */
  datatype SeedPath = SeedPath(tier: Tier, path: Path)

  datatype DownloadMove = DownloadMove(group: Group, seed: SeedPath, location: Place, newContent: Place)

  /** What a plan is built from: the downloads tiers, usable paths and where each lies, what to keep off or
      leave alone, and what exists already. */
  datatype DownloadsInput = DownloadsInput(tiers: seq<Tier>, usage: map<Path, Usage>, volumeOf: map<Path, nat>, placeOf: map<Path, Place>,
                         unseen: set<Path>, leave: set<string>, existing: set<Place>)

  /** Every path has its place, and every group was located by its save path. */
  ghost predicate WellPlaced(input: DownloadsInput, groups: seq<Group>) {
    && (forall t, p :: t in input.tiers && p in t.paths ==> p in input.placeOf)
    && forall g :: g in groups ==> g.tierPath in input.placeOf && input.placeOf[g.tierPath] <= g.save
  }

  // ----- where a download would land

  /** The content relative to the save path; none when it is not inside it. */
  function RelContent(g: Group): Option<Place> {
    if g.save < g.content && !(".." <= g.content[|g.save|]) then Some(g.content[|g.save|..]) else None
  }

  /** The location and content of a group moved to a place: what is below its tier path stays the same. */
  function MoveFor(placeOf: map<Path, Place>, g: Group, s: SeedPath): (m: DownloadMove)
    requires g.tierPath in placeOf && placeOf[g.tierPath] <= g.save && s.path in placeOf && RelContent(g).Some?
  {
    var location := placeOf[s.path] + g.save[|placeOf[g.tierPath]|..];
    DownloadMove(g, s, location, location + RelContent(g).value)
  }

  /** The new content is the old one with the tier path replaced, and so is the location. */
  lemma {:induction false} Rebased(placeOf: map<Path, Place>, g: Group, s: SeedPath)
    requires g.tierPath in placeOf && placeOf[g.tierPath] <= g.save && s.path in placeOf && RelContent(g).Some?
    ensures var m := MoveFor(placeOf, g, s);
            var n := |placeOf[g.tierPath]|;
            && n < |g.content| && g.content[..n] == placeOf[g.tierPath]
            && m.newContent == placeOf[s.path] + g.content[n..] && m.location == placeOf[s.path] + g.save[n..] && m.location < m.newContent
  {
    var n := |placeOf[g.tierPath]|;
    assert g.content == g.save + g.content[|g.save|..];
    assert g.save[..n] == placeOf[g.tierPath];
    assert g.content[n..] == g.save[n..] + g.content[|g.save|..];
  }

  /** Where a group's content lies below its tier path. */
  function BelowTier(placeOf: map<Path, Place>, g: Group): Place
    requires g.tierPath in placeOf && |placeOf[g.tierPath]| <= |g.content|
  {
    g.content[|placeOf[g.tierPath]|..]
  }

  predicate CanRebase(placeOf: map<Path, Place>, g: Group) {
    g.tierPath in placeOf && placeOf[g.tierPath] <= g.save && RelContent(g).Some?
  }

  lemma {:induction false} HasBelow(placeOf: map<Path, Place>, g: Group)
    requires CanRebase(placeOf, g)
    ensures |placeOf[g.tierPath]| < |g.content|
  {
  }

  /** Two moves land on one place exactly when what lies below their tier paths, put below their seed paths,
      is the same. */
  lemma {:induction false} MeetAnywhereExactly(placeOf: map<Path, Place>, g: Group, h: Group, s: SeedPath, t: SeedPath)
    requires CanRebase(placeOf, g) && CanRebase(placeOf, h) && s.path in placeOf && t.path in placeOf
    ensures |placeOf[g.tierPath]| <= |g.content| && |placeOf[h.tierPath]| <= |h.content|
    ensures MoveFor(placeOf, g, s).newContent == MoveFor(placeOf, h, t).newContent
       <==> placeOf[s.path] + BelowTier(placeOf, g) == placeOf[t.path] + BelowTier(placeOf, h)
  {
    Rebased(placeOf, g, s);
    Rebased(placeOf, h, t);
  }

  /** Two groups moved to one seed path land on one place exactly when they lie at the same place below their
      tier paths. */
  lemma {:induction false} MeetExactly(placeOf: map<Path, Place>, g: Group, h: Group, s: SeedPath, t: SeedPath)
    requires CanRebase(placeOf, g) && CanRebase(placeOf, h) && s.path in placeOf && s.path == t.path
    ensures |placeOf[g.tierPath]| <= |g.content| && |placeOf[h.tierPath]| <= |h.content|
    ensures MoveFor(placeOf, g, s).newContent == MoveFor(placeOf, h, t).newContent <==> BelowTier(placeOf, g) == BelowTier(placeOf, h)
  {
    MeetAnywhereExactly(placeOf, g, h, s, t);
    SamePrefix(placeOf[s.path], BelowTier(placeOf, g), BelowTier(placeOf, h));
  }

  lemma {:induction false} SamePrefix(p: Place, a: Place, b: Place)
    ensures p + a == p + b <==> a == b
  {
    assert (p + a)[|p|..] == a && (p + b)[|p|..] == b;
  }

  /** Different downloads from one tier path never land on one place of one seed path. */
  lemma {:induction false} LandApart(placeOf: map<Path, Place>, g: Group, h: Group, s: SeedPath, t: SeedPath)
    requires CanRebase(placeOf, g) && CanRebase(placeOf, h) && s.path in placeOf
    requires g.tierPath == h.tierPath && s.path == t.path && MoveFor(placeOf, g, s).newContent == MoveFor(placeOf, h, t).newContent
    ensures g.content == h.content
  {
    MeetExactly(placeOf, g, h, s, t);
    Rebased(placeOf, g, s);
    Rebased(placeOf, h, t);
    assert g.content == placeOf[g.tierPath] + BelowTier(placeOf, g) && h.content == placeOf[g.tierPath] + BelowTier(placeOf, h);
  }

  /** Moves to seed paths that lie apart never meet. */
  lemma {:induction false} SeedsApart(placeOf: map<Path, Place>, g: Group, h: Group, s: SeedPath, t: SeedPath)
    requires CanRebase(placeOf, g) && CanRebase(placeOf, h) && s.path in placeOf && t.path in placeOf
    requires MoveFor(placeOf, g, s).newContent == MoveFor(placeOf, h, t).newContent
    ensures placeOf[s.path] <= placeOf[t.path] || placeOf[t.path] <= placeOf[s.path]
  {
    Rebased(placeOf, g, s);
    Rebased(placeOf, h, t);
    var m := MoveFor(placeOf, g, s).newContent;
    assert m[..|placeOf[s.path]|] == placeOf[s.path] && m[..|placeOf[t.path]|] == placeOf[t.path];
  }

  // ----- the destination

  ghost predicate IsSeed(input: DownloadsInput, s: SeedPath) {
    s.tier in input.tiers && s.tier.role == Cold && s.path in s.tier.paths && s.path in input.usage && s.path !in input.unseen
  }

  /** The usable seed storage paths. */
  ghost predicate Seeds(input: DownloadsInput, seeds: seq<SeedPath>) {
    && (forall s :: s in seeds ==> IsSeed(input, s))
    && forall t, p :: IsSeed(input, SeedPath(t, p)) ==> SeedPath(t, p) in seeds
  }

  method SeedPaths(input: DownloadsInput) returns (seeds: seq<SeedPath>)
    ensures Seeds(input, seeds)
  {
    seeds := [];
    for i := 0 to |input.tiers|
      invariant forall s :: s in seeds ==> IsSeed(input, s)
      invariant forall t, p :: t in input.tiers[..i] && IsSeed(input, SeedPath(t, p)) ==> SeedPath(t, p) in seeds
    {
      var tier := input.tiers[i];
      assert input.tiers[..i + 1] == input.tiers[..i] + [tier];
      if tier.role != Cold {
        continue;
      }
      for j := 0 to |tier.paths|
        invariant forall s :: s in seeds ==> IsSeed(input, s)
        invariant forall t, p :: t in input.tiers[..i] && IsSeed(input, SeedPath(t, p)) ==> SeedPath(t, p) in seeds
        invariant forall k :: 0 <= k < j && IsSeed(input, SeedPath(tier, tier.paths[k])) ==> SeedPath(tier, tier.paths[k]) in seeds
      {
        var p := tier.paths[j];
        if p in input.usage && p !in input.unseen {
          seeds := seeds + [SeedPath(tier, p)];
        }
      }
    }
    assert input.tiers[..|input.tiers|] == input.tiers;
  }

  /** The group can go there: it fits under the ceiling, and nothing is in its way. */
  predicate MayLand(input: DownloadsInput, usage: map<Path, Usage>, g: Group, s: SeedPath, ceiling: Tier -> real)
    requires g.tierPath in input.placeOf && input.placeOf[g.tierPath] <= g.save && RelContent(g).Some?
  {
    s.path in usage && Fits(usage[s.path], g.size, ceiling(s.tier)) && s.path in input.placeOf && MoveFor(input.placeOf, g, s).newContent !in input.existing
  }

  ghost predicate FullestOf(input: DownloadsInput, usage: map<Path, Usage>, g: Group, seeds: seq<SeedPath>, ceiling: Tier -> real, s: SeedPath)
    requires g.tierPath in input.placeOf && input.placeOf[g.tierPath] <= g.save && RelContent(g).Some?
  {
    && s in seeds && MayLand(input, usage, g, s, ceiling)
    && forall t :: t in seeds && MayLand(input, usage, g, t, ceiling) ==> usage[t.path].UsedPercent() <= usage[s.path].UsedPercent()
  }

  ghost predicate NoneGo(input: DownloadsInput, usage: map<Path, Usage>, g: Group, seeds: seq<SeedPath>, ceiling: Tier -> real)
    requires g.tierPath in input.placeOf && input.placeOf[g.tierPath] <= g.save && RelContent(g).Some?
  {
    forall s :: s in seeds ==> !MayLand(input, usage, g, s, ceiling)
  }

  /** Fullest first. */
  function FullerFirst(usage: map<Path, Usage>): (SeedPath, SeedPath) -> bool {
    (a: SeedPath, b: SeedPath) => a.path in usage && b.path in usage && usage[a.path].UsedPercent() > usage[b.path].UsedPercent()
  }

  method Fitting(usage: map<Path, Usage>, size: int, seeds: seq<SeedPath>, ceiling: Tier -> real) returns (candidates: seq<SeedPath>)
    ensures forall s :: s in candidates <==> s in seeds && s.path in usage && Fits(usage[s.path], size, ceiling(s.tier))
  {
    candidates := [];
    for i := 0 to |seeds|
      invariant forall s :: s in candidates <==> s in seeds[..i] && s.path in usage && Fits(usage[s.path], size, ceiling(s.tier))
    {
      assert seeds[..i + 1] == seeds[..i] + [seeds[i]];
      if seeds[i].path in usage && Fits(usage[seeds[i].path], size, ceiling(seeds[i].tier)) {
        candidates := candidates + [seeds[i]];
      }
    }
    assert seeds[..|seeds|] == seeds;
  }

  lemma {:induction false} NoneFullerAfter(usage: map<Path, Usage>, candidates: seq<SeedPath>, i: nat, j: nat)
    requires SortedBy(candidates, FullerFirst(usage)) && i <= j < |candidates| && candidates[i].path in usage && candidates[j].path in usage
    ensures usage[candidates[j].path].UsedPercent() <= usage[candidates[i].path].UsedPercent()
  {
    assert j > i ==> !FullerFirst(usage)(candidates[j], candidates[i]);
  }

  /** The fullest path the group can go to under one kind of ceiling. */
  method ChooseUnder(input: DownloadsInput, usage: map<Path, Usage>, g: Group, seeds: seq<SeedPath>, ceiling: Tier -> real) returns (chosen: Option<SeedPath>)
    requires g.tierPath in input.placeOf && input.placeOf[g.tierPath] <= g.save && RelContent(g).Some?
    requires forall s :: s in seeds ==> s.path in input.placeOf
    ensures chosen.None? ==> NoneGo(input, usage, g, seeds, ceiling)
    ensures chosen.Some? ==> FullestOf(input, usage, g, seeds, ceiling, chosen.value)
  {
    var found := Fitting(usage, g.size, seeds, ceiling);
    var candidates := SortSlice(found, FullerFirst(usage));
    SamePermutationMembers(candidates, found);
    for i := 0 to |candidates|
      invariant forall j :: 0 <= j < i ==> !MayLand(input, usage, g, candidates[j], ceiling)
    {
      var s := candidates[i];
      assert s in candidates;
      if MoveFor(input.placeOf, g, s).newContent !in input.existing {
        forall t | t in candidates && MayLand(input, usage, g, t, ceiling)
          ensures usage[t.path].UsedPercent() <= usage[s.path].UsedPercent()
        {
          var j :| 0 <= j < |candidates| && candidates[j] == t;
          NoneFullerAfter(usage, candidates, i, j);
        }
        return Some(s);
      }
    }
    return None;
  }

  /** The best destination: under the target where any will do, else under the max. */
  ghost predicate BestFor(input: DownloadsInput, usage: map<Path, Usage>, g: Group, seeds: seq<SeedPath>, s: SeedPath)
    requires g.tierPath in input.placeOf && input.placeOf[g.tierPath] <= g.save && RelContent(g).Some?
  {
    FullestOf(input, usage, g, seeds, TargetCeiling, s) || (NoneGo(input, usage, g, seeds, TargetCeiling) && FullestOf(input, usage, g, seeds, MaxCeiling, s))
  }

  method Choose(input: DownloadsInput, usage: map<Path, Usage>, g: Group, seeds: seq<SeedPath>) returns (chosen: Option<SeedPath>)
    requires g.tierPath in input.placeOf && input.placeOf[g.tierPath] <= g.save && RelContent(g).Some?
    requires forall s :: s in seeds ==> s.path in input.placeOf
    ensures chosen.None? ==> NoneGo(input, usage, g, seeds, TargetCeiling) && NoneGo(input, usage, g, seeds, MaxCeiling)
    ensures chosen.Some? ==> BestFor(input, usage, g, seeds, chosen.value)
  {
    chosen := ChooseUnder(input, usage, g, seeds, TargetCeiling);
    if chosen.None? {
      chosen := ChooseUnder(input, usage, g, seeds, MaxCeiling);
    }
  }

  /** Wherever it goes, it fits under the max that verifyRoom will hold it to. */
  lemma {:induction false} BestFitsMax(input: DownloadsInput, usage: map<Path, Usage>, g: Group, seeds: seq<SeedPath>, s: SeedPath)
    requires ValidTiers(input.tiers) && Seeds(input, seeds)
    requires g.tierPath in input.placeOf && input.placeOf[g.tierPath] <= g.save && RelContent(g).Some?
    requires BestFor(input, usage, g, seeds, s)
    ensures MayLand(input, usage, g, s, MaxCeiling) && IsSeed(input, s)
  {
    if FullestOf(input, usage, g, seeds, TargetCeiling, s) {
      var i :| 0 <= i < |input.tiers| && input.tiers[i] == s.tier;
      FitsMonotone(usage[s.path], usage[s.path], g.size, s.tier.target, s.tier.max);
    }
  }

  // ----- the plan

  /** The move as the usage arithmetic and the engine count it. Downloads plans have one phase. */
  function AsMove(m: DownloadMove): MoveEntry {
    MoveEntry(Item(Key("", 0), Movie, m.group.tierPath, m.group.size, false, false, false, false), "", Hot, m.group.tierPath,
              m.seed.tier.name, m.seed.path, 0, m.seed.tier.max)
  }

  function Moves(entries: seq<DownloadMove>): seq<MoveEntry> {
    seq(|entries|, i requires 0 <= i < |entries| => AsMove(entries[i]))
  }

  /** Left for removal: every member is about to be removed. */
  predicate AllLeft(g: Group, leave: set<string>) {
    (forall h :: h in g.hashes ==> h in leave) && leave != {}
  }

  predicate Skipped(input: DownloadsInput, g: Group) {
    AllLeft(g, input.leave) || RelContent(g).None?
  }

  /** What becomes of a group, given the moves planned before it: nothing, when it is skipped or has nowhere
      to go; else a move to the best destination. */
  ghost predicate Decided(input: DownloadsInput, seeds: seq<SeedPath>, g: Group, before: seq<DownloadMove>, after: seq<DownloadMove>)
    requires g.tierPath in input.placeOf && input.placeOf[g.tierPath] <= g.save
    requires forall s :: s in seeds ==> s.path in input.placeOf
  {
    if Skipped(input, g) then after == before
    else
      var usage := After(input.volumeOf, input.usage, Moves(before));
      || (after == before && NoneGo(input, usage, g, seeds, TargetCeiling) && NoneGo(input, usage, g, seeds, MaxCeiling))
      || exists s :: s in seeds && BestFor(input, usage, g, seeds, s) && after == before + [MoveFor(input.placeOf, g, s)]
  }

  /** The plan after each of the first n groups: each is decided on what was planned before it. */
  ghost predicate PlannedInTurn(input: DownloadsInput, seeds: seq<SeedPath>, groups: seq<Group>, plans: seq<seq<DownloadMove>>, n: nat)
    requires WellPlaced(input, groups) && (forall s :: s in seeds ==> s.path in input.placeOf) && n <= |groups|
  {
    && |plans| == n + 1 && plans[0] == []
    && forall i :: 0 <= i < n ==> Decided(input, seeds, groups[i], plans[i], plans[i + 1])
  }

  lemma {:induction false} OneMorePlanned(input: DownloadsInput, seeds: seq<SeedPath>, groups: seq<Group>, plans: seq<seq<DownloadMove>>, n: nat, after: seq<DownloadMove>)
    requires WellPlaced(input, groups) && (forall s :: s in seeds ==> s.path in input.placeOf) && n < |groups|
    requires PlannedInTurn(input, seeds, groups, plans, n) && Decided(input, seeds, groups[n], plans[n], after)
    ensures PlannedInTurn(input, seeds, groups, plans + [after], n + 1)
  {
    var next := plans + [after];
    forall i | 0 <= i < n + 1
      ensures Decided(input, seeds, groups[i], next[i], next[i + 1])
    {
      assert next[i] == plans[i];
      assert next[i + 1] == if i == n then after else plans[i + 1];
    }
  }

  /** A plan the groups may end in. */
  ghost predicate Planned(input: DownloadsInput, groups: seq<Group>, entries: seq<DownloadMove>)
    requires WellPlaced(input, groups)
  {
    exists seeds: seq<SeedPath>, plans: seq<seq<DownloadMove>> ::
      && Seeds(input, seeds) && (forall s :: s in seeds ==> s.path in input.placeOf)
      && PlannedInTurn(input, seeds, groups, plans, |groups|) && plans[|groups|] == entries
  }

  lemma {:induction false} MovesAppend(entries: seq<DownloadMove>, m: DownloadMove)
    ensures Moves(entries + [m]) == Moves(entries) + [AsMove(m)]
  {
  }

  lemma {:induction false} SeedsPlaced(input: DownloadsInput, seeds: seq<SeedPath>, groups: seq<Group>)
    requires WellPlaced(input, groups) && Seeds(input, seeds)
    ensures forall s :: s in seeds ==> s.path in input.placeOf
  {
  }

  /** Plans the groups in the order given: longest-finished first, as readyGroups sorts them. */
  method BuildPlan(input: DownloadsInput, groups: seq<Group>) returns (entries: seq<DownloadMove>, finalUsage: map<Path, Usage>)
    requires WellPlaced(input, groups)
    ensures Planned(input, groups, entries)
    ensures finalUsage == After(input.volumeOf, input.usage, Moves(entries))
  {
    var volumes := GroupVolumes(input.volumeOf);
    var seeds := SeedPaths(input);
    SeedsPlaced(input, seeds, groups);
    var working := new UsageTable.Copy(input.usage);
    ghost var plans: seq<seq<DownloadMove>> := [[]];
    entries := [];
    for i := 0 to |groups|
      invariant working.usage == After(input.volumeOf, input.usage, Moves(entries))
      invariant PlannedInTurn(input, seeds, groups, plans, i) && plans[i] == entries
    {
      var after := PlanGroup(input, volumes, seeds, groups[i], working, entries);
      OneMorePlanned(input, seeds, groups, plans, i, after);
      entries, plans := after, plans + [after];
    }
    finalUsage := working.usage;
  }

  method PlanGroup(input: DownloadsInput, volumes: Volumes, seeds: seq<SeedPath>, g: Group, working: UsageTable, before: seq<DownloadMove>) returns (after: seq<DownloadMove>)
    requires IsGrouping(volumes, input.volumeOf) && g.tierPath in input.placeOf && input.placeOf[g.tierPath] <= g.save
    requires (forall s :: s in seeds ==> s.path in input.placeOf) && working.usage == After(input.volumeOf, input.usage, Moves(before))
    modifies working
    ensures Decided(input, seeds, g, before, after) && working.usage == After(input.volumeOf, input.usage, Moves(after))
  {
    if AllLeft(g, input.leave) || RelContent(g).None? {
      return before;
    }
    var chosen := Choose(input, working.usage, g, seeds);
    if chosen.None? {
      return before;
    }
    var m := MoveFor(input.placeOf, g, chosen.value);
    MovesAppend(before, m);
    AfterAppend(input.volumeOf, input.usage, Moves(before), AsMove(m));
    CountMove(volumes, input.volumeOf, working, AsMove(m));
    after := before + [m];
  }

  // ----- what every planned move guarantees

  /** The move fits its destination under its max once everything planned before it has landed. */
  ghost predicate FitsInTurn(input: DownloadsInput, entries: seq<DownloadMove>, k: nat)
    requires k < |entries|
  {
    Admits(After(input.volumeOf, input.usage, Moves(entries[..k])), AsMove(entries[k]))
  }

  ghost predicate GoodMove(input: DownloadsInput, groups: seq<Group>, m: DownloadMove)
    requires WellPlaced(input, groups)
  {
    && m.group in groups && !Skipped(input, m.group) && m.newContent !in input.existing
    && IsSeed(input, m.seed) && m.seed.path in input.placeOf && m == MoveFor(input.placeOf, m.group, m.seed)
  }

  ghost predicate EachGood(input: DownloadsInput, groups: seq<Group>, entries: seq<DownloadMove>)
    requires WellPlaced(input, groups)
  {
    forall k :: 0 <= k < |entries| ==> FitsInTurn(input, entries, k) && GoodMove(input, groups, entries[k])
  }

  lemma {:induction false} TurnsFit(input: DownloadsInput, seeds: seq<SeedPath>, groups: seq<Group>, plans: seq<seq<DownloadMove>>, i: nat)
    requires ValidTiers(input.tiers) && WellPlaced(input, groups) && Seeds(input, seeds) && forall s :: s in seeds ==> s.path in input.placeOf
    requires PlannedInTurn(input, seeds, groups, plans, |groups|) && i <= |groups|
    ensures EachGood(input, groups, plans[i])
    decreases i
  {
    if i > 0 {
      TurnsFit(input, seeds, groups, plans, i - 1);
      TurnDecided(input, seeds, groups, plans, i - 1);
      if plans[i] != plans[i - 1] {
        NewTurnFits(input, seeds, groups, plans[i - 1], plans[i], i - 1);
      }
    }
  }

  lemma {:induction false} TurnDecided(input: DownloadsInput, seeds: seq<SeedPath>, groups: seq<Group>, plans: seq<seq<DownloadMove>>, i: nat)
    requires WellPlaced(input, groups) && (forall s :: s in seeds ==> s.path in input.placeOf)
    requires PlannedInTurn(input, seeds, groups, plans, |groups|) && i < |groups|
    ensures Decided(input, seeds, groups[i], plans[i], plans[i + 1])
  {
  }

  lemma {:induction false} NewTurnFits(input: DownloadsInput, seeds: seq<SeedPath>, groups: seq<Group>, before: seq<DownloadMove>, after: seq<DownloadMove>, i: nat)
    requires ValidTiers(input.tiers) && WellPlaced(input, groups) && Seeds(input, seeds) && (forall s :: s in seeds ==> s.path in input.placeOf)
    requires i < |groups| && Decided(input, seeds, groups[i], before, after) && after != before
    requires EachGood(input, groups, before)
    ensures EachGood(input, groups, after)
  {
    var g := groups[i];
    var usage := After(input.volumeOf, input.usage, Moves(before));
    var s :| s in seeds && BestFor(input, usage, g, seeds, s) && after == before + [MoveFor(input.placeOf, g, s)];
    BestFitsMax(input, usage, g, seeds, s);
    assert after[..|before|] == before;
    assert FitsInTurn(input, after, |before|) && GoodMove(input, groups, after[|before|]);
    forall k | 0 <= k < |before|
      ensures FitsInTurn(input, after, k) && GoodMove(input, groups, after[k])
    {
      StillFitsInTurn(input, before, after, k);
    }
  }

  lemma {:induction false} StillFitsInTurn(input: DownloadsInput, before: seq<DownloadMove>, after: seq<DownloadMove>, k: nat)
    requires k < |before| <= |after| && after[..|before|] == before && FitsInTurn(input, before, k)
    ensures FitsInTurn(input, after, k) && after[k] == before[k]
  {
    assert after[..k] == before[..k];
    assert after[k] == after[..|before|][k];
  }

  /** Every move of a plan is to a usable seed path, keeps clear of what exists, and fits in its turn. */
  lemma {:induction false} PlanIsGood(input: DownloadsInput, groups: seq<Group>, entries: seq<DownloadMove>)
    requires ValidTiers(input.tiers) && WellPlaced(input, groups) && Planned(input, groups, entries)
    ensures EachGood(input, groups, entries)
  {
    var seeds: seq<SeedPath>, plans: seq<seq<DownloadMove>> :|
      && Seeds(input, seeds) && (forall s :: s in seeds ==> s.path in input.placeOf)
      && PlannedInTurn(input, seeds, groups, plans, |groups|) && plans[|groups|] == entries;
    TurnsFit(input, seeds, groups, plans, |groups|);
  }

  // ----- two moves to one place

  /** Two moves of a plan land on one place exactly when what lies below their tier paths, put below their seed
      paths, is the same. */
  lemma {:induction false} PlannedMeetAnywhere(input: DownloadsInput, groups: seq<Group>, entries: seq<DownloadMove>, i: nat, j: nat)
    requires ValidTiers(input.tiers) && WellPlaced(input, groups) && Planned(input, groups, entries) && i < |entries| && j < |entries|
    ensures Rebases(input, entries[i]) && Rebases(input, entries[j])
    ensures entries[i].newContent == entries[j].newContent
       <==> input.placeOf[entries[i].seed.path] + BelowTier(input.placeOf, entries[i].group)
            == input.placeOf[entries[j].seed.path] + BelowTier(input.placeOf, entries[j].group)
  {
    PlanIsGood(input, groups, entries);
    assert GoodMove(input, groups, entries[i]) && GoodMove(input, groups, entries[j]);
    HasBelow(input.placeOf, entries[i].group);
    HasBelow(input.placeOf, entries[j].group);
    MeetAnywhereExactly(input.placeOf, entries[i].group, entries[j].group, entries[i].seed, entries[j].seed);
  }

  predicate Rebases(input: DownloadsInput, m: DownloadMove) {
    CanRebase(input.placeOf, m.group) && |input.placeOf[m.group.tierPath]| < |m.group.content| && m.seed.path in input.placeOf
  }

  /** To one seed path: exactly when their groups lie at the same place below their tier paths. */
  lemma {:induction false} PlannedMeetExactly(input: DownloadsInput, groups: seq<Group>, entries: seq<DownloadMove>, i: nat, j: nat)
    requires ValidTiers(input.tiers) && WellPlaced(input, groups) && Planned(input, groups, entries)
    requires i < |entries| && j < |entries| && entries[i].seed.path == entries[j].seed.path
    ensures Rebases(input, entries[i]) && Rebases(input, entries[j])
    ensures entries[i].newContent == entries[j].newContent <==> BelowTier(input.placeOf, entries[i].group) == BelowTier(input.placeOf, entries[j].group)
  {
    PlannedMeetAnywhere(input, groups, entries, i, j);
    SamePrefix(input.placeOf[entries[i].seed.path], BelowTier(input.placeOf, entries[i].group), BelowTier(input.placeOf, entries[j].group));
  }

  // ----- inputs whose plan is known

  /** Of the seed paths only s has room for the group, and under its target already. */
  ghost predicate OnlyRoomAt(input: DownloadsInput, usage: map<Path, Usage>, g: Group, s: SeedPath) {
    && IsSeed(input, s) && s.path in usage && Fits(usage[s.path], g.size, s.tier.target)
    && forall t :: IsSeed(input, t) && t != s ==> NoRoomAt(usage, g, t)
  }

  predicate NoRoomAt(usage: map<Path, Usage>, g: Group, t: SeedPath) {
    t.path in usage ==> !Fits(usage[t.path], g.size, t.tier.target) && !Fits(usage[t.path], g.size, t.tier.max)
  }

  ghost predicate SeedsPlacedAt(input: DownloadsInput, seeds: seq<SeedPath>) {
    Seeds(input, seeds) && forall s :: s in seeds ==> s.path in input.placeOf
  }

  /** Then the group is moved there and nowhere else. */
  lemma {:induction false} OnlyChoice(input: DownloadsInput, seeds: seq<SeedPath>, g: Group, before: seq<DownloadMove>, after: seq<DownloadMove>, s: SeedPath)
    requires SeedsPlacedAt(input, seeds) && CanRebase(input.placeOf, g) && !AllLeft(g, input.leave) && s.path in input.placeOf
    requires MoveFor(input.placeOf, g, s).newContent !in input.existing
    requires OnlyRoomAt(input, After(input.volumeOf, input.usage, Moves(before)), g, s)
    ensures Decided(input, seeds, g, before, after) <==> after == before + [MoveFor(input.placeOf, g, s)]
  {
    var usage := After(input.volumeOf, input.usage, Moves(before));
    assert s == SeedPath(s.tier, s.path) && s in seeds;
    OnlyOneLands(input, seeds, g, usage, s, TargetCeiling);
    OnlyOneLands(input, seeds, g, usage, s, MaxCeiling);
    assert MayLand(input, usage, g, s, TargetCeiling);
    assert FullestOf(input, usage, g, seeds, TargetCeiling, s);
  }

  lemma {:induction false} OnlyOneLands(input: DownloadsInput, seeds: seq<SeedPath>, g: Group, usage: map<Path, Usage>, s: SeedPath, ceiling: Tier -> real)
    requires Seeds(input, seeds) && CanRebase(input.placeOf, g) && OnlyRoomAt(input, usage, g, s) && (ceiling == TargetCeiling || ceiling == MaxCeiling)
    ensures forall t :: t in seeds && t != s ==> !MayLand(input, usage, g, t, ceiling)
  {
    forall t | t in seeds && t != s
      ensures !MayLand(input, usage, g, t, ceiling)
    {
      assert NoRoomAt(usage, g, t);
    }
  }

  /** With one seed path having room for each of two groups in its turn, there is exactly one plan for them. */
  lemma {:induction false} TwoPlannedExactly(input: DownloadsInput, seeds: seq<SeedPath>, g: Group, h: Group, s: SeedPath, t: SeedPath, entries: seq<DownloadMove>)
    requires WellPlaced(input, [g, h]) && SeedsPlacedAt(input, seeds) && input.existing == {} && s.path in input.placeOf && t.path in input.placeOf
    requires CanRebase(input.placeOf, g) && !AllLeft(g, input.leave) && CanRebase(input.placeOf, h) && !AllLeft(h, input.leave)
    requires OnlyRoomAt(input, After(input.volumeOf, input.usage, Moves([])), g, s)
    requires OnlyRoomAt(input, After(input.volumeOf, input.usage, Moves([MoveFor(input.placeOf, g, s)])), h, t)
    ensures Planned(input, [g, h], entries) <==> entries == [MoveFor(input.placeOf, g, s), MoveFor(input.placeOf, h, t)]
  {
    var first, both := [MoveFor(input.placeOf, g, s)], [MoveFor(input.placeOf, g, s), MoveFor(input.placeOf, h, t)];
    assert [] + first == first && first + [MoveFor(input.placeOf, h, t)] == both;
    if entries == both {
      OnlyChoice(input, seeds, g, [], first, s);
      OnlyChoice(input, seeds, h, first, both, t);
      TwoTurns(input, seeds, g, h, first, both);
    }
    if Planned(input, [g, h], entries) {
      var after, others := FirstTurn(input, g, h, entries);
      OnlyChoice(input, others, g, [], after, s);
      OnlyChoice(input, others, h, after, entries, t);
    }
  }

  lemma {:induction false} TwoTurns(input: DownloadsInput, seeds: seq<SeedPath>, g: Group, h: Group, first: seq<DownloadMove>, both: seq<DownloadMove>)
    requires WellPlaced(input, [g, h]) && SeedsPlacedAt(input, seeds) && CanRebase(input.placeOf, g) && CanRebase(input.placeOf, h)
    requires Decided(input, seeds, g, [], first) && Decided(input, seeds, h, first, both)
    ensures Planned(input, [g, h], both)
  {
    var groups, plans := [g, h], [[], first, both];
    forall i | 0 <= i < 2
      ensures Decided(input, seeds, groups[i], plans[i], plans[i + 1])
    {
      if i == 0 {
        assert groups[i] == g;
      } else {
        assert groups[i] == h;
      }
    }
    assert PlannedInTurn(input, seeds, groups, plans, 2) && plans[2] == both;
  }

  /** What a plan for two groups was after the first. */
  lemma {:induction false} FirstTurn(input: DownloadsInput, g: Group, h: Group, entries: seq<DownloadMove>) returns (first: seq<DownloadMove>, seeds: seq<SeedPath>)
    requires WellPlaced(input, [g, h]) && CanRebase(input.placeOf, g) && CanRebase(input.placeOf, h) && Planned(input, [g, h], entries)
    ensures SeedsPlacedAt(input, seeds) && Decided(input, seeds, g, [], first) && Decided(input, seeds, h, first, entries)
  {
    var list: seq<SeedPath>, plans: seq<seq<DownloadMove>> :|
      && Seeds(input, list) && (forall s :: s in list ==> s.path in input.placeOf)
      && PlannedInTurn(input, list, [g, h], plans, |[g, h]|) && plans[|[g, h]|] == entries;
    seeds, first := list, plans[1];
    TurnDecided(input, list, [g, h], plans, 0);
    TurnDecided(input, list, [g, h], plans, 1);
  }

  lemma {:induction false} NotAllLeft(g: Group)
    requires g.hashes != []
    ensures !AllLeft(g, {})
  {
    assert g.hashes[0] in g.hashes;
  }

  // ----- two downloads on one seed disk

  /** The download drives. */
  function Drives(paths: seq<Path>): Tier {
    Tier("downloads", Hot, paths, [], 0.0, 0.0)
  }

  /** One roomy seed disk, nothing kept off it and nothing on it. */
  function RoomyInput(placeOf: map<Path, Place>, drives: seq<Path>, s: SeedPath, total: nat): DownloadsInput {
    DownloadsInput([Drives(drives), s.tier], map[s.path := Usage(total, total, 0)], map[], placeOf, {}, {}, {})
  }

  /** Whatever the two groups, nothing keeps the planner from moving both there: so whenever they lie at the
      same place below different tier paths, the plan sends both to one place. */
  lemma {:induction false} BothArePlanned(placeOf: map<Path, Place>, g: Group, h: Group, s: SeedPath, entries: seq<DownloadMove>)
    requires CanRebase(placeOf, g) && CanRebase(placeOf, h) && s.path in placeOf && g.hashes != [] && h.hashes != []
    requires 0 <= g.size && 0 <= h.size && g.tierPath != s.path && h.tierPath != s.path
    requires s.tier.role == Cold && s.tier.paths == [s.path] && s.tier.target == 100.0 && s.tier.max == 100.0
    ensures var input := RoomyInput(placeOf, [g.tierPath, h.tierPath], s, 1 + g.size + h.size);
            && ValidTiers(input.tiers) && WellPlaced(input, [g, h])
            && (Planned(input, [g, h], entries) <==> entries == [MoveFor(placeOf, g, s), MoveFor(placeOf, h, s)])
  {
    var total := 1 + g.size + h.size;
    var input := RoomyInput(placeOf, [g.tierPath, h.tierPath], s, total);
    RoomyIsPlaced(placeOf, g, h, s, total);
    RoomyTurns(input, g, h, s);
    NotAllLeft(g);
    NotAllLeft(h);
    TwoPlannedExactly(input, [s], g, h, s, s, entries);
  }

  lemma {:induction false} RoomyIsPlaced(placeOf: map<Path, Place>, g: Group, h: Group, s: SeedPath, total: nat)
    requires CanRebase(placeOf, g) && CanRebase(placeOf, h) && s.path in placeOf
    requires s.tier.role == Cold && s.tier.paths == [s.path] && s.tier.target <= s.tier.max && g.tierPath != s.path && h.tierPath != s.path
    ensures var input := RoomyInput(placeOf, [g.tierPath, h.tierPath], s, total);
            ValidTiers(input.tiers) && WellPlaced(input, [g, h]) && SeedsPlacedAt(input, [s])
  {
  }

  lemma {:induction false} RoomyTurns(input: DownloadsInput, g: Group, h: Group, s: SeedPath)
    requires CanRebase(input.placeOf, g) && s.path in input.placeOf && 0 <= g.size && 0 <= h.size && g.tierPath != s.path
    requires input == RoomyInput(input.placeOf, [g.tierPath, h.tierPath], s, 1 + g.size + h.size) && s.tier.role == Cold && s.tier.paths == [s.path] && s.tier.target == 100.0
    ensures OnlyRoomAt(input, After(input.volumeOf, input.usage, Moves([])), g, s)
    ensures OnlyRoomAt(input, After(input.volumeOf, input.usage, Moves([MoveFor(input.placeOf, g, s)])), h, s)
  {
    var total := 1 + g.size + h.size;
    NoArrival(input, s, total);
    RoomOnRoomy(input, [g.tierPath, h.tierPath], g, s, total, 0);
    OneArrival(input, MoveFor(input.placeOf, g, s), s, total);
    RoomOnRoomy(input, [g.tierPath, h.tierPath], h, s, total, g.size);
  }

  lemma {:induction false} NoArrival(input: DownloadsInput, s: SeedPath, total: nat)
    requires input.usage == map[s.path := Usage(total, total, 0)]
    ensures After(input.volumeOf, input.usage, Moves([])) == map[s.path := Usage(total, total - 0, 0)]
  {
    assert Moves([]) == [];
  }

  lemma {:induction false} OneArrival(input: DownloadsInput, m: DownloadMove, s: SeedPath, total: nat)
    requires m.seed == s && 0 <= m.group.size <= total && m.group.tierPath != s.path
    requires input.volumeOf == map[] && input.usage == map[s.path := Usage(total, total, 0)]
    ensures After(input.volumeOf, input.usage, Moves([m])) == map[s.path := Usage(total, total - m.group.size, m.group.size)]
  {
    assert Moves([m])[..0] == [];
    assert After(input.volumeOf, input.usage, []) == input.usage;
  }

  lemma {:induction false} RoomyFits(total: nat, taken: nat, size: nat)
    requires taken + size < total
    ensures Fits(Usage(total, total - taken, taken), size, 100.0)
  {
    ReservedRuns.PercentBound(taken + size, total - taken - size, 100.0);
  }

  lemma {:induction false} RoomOnRoomy(input: DownloadsInput, drives: seq<Path>, g: Group, s: SeedPath, total: nat, taken: nat)
    requires input == RoomyInput(input.placeOf, drives, s, total) && s.tier.role == Cold && s.tier.paths == [s.path]
    requires s.tier.target == 100.0 && 0 <= g.size && taken + g.size < total
    ensures OnlyRoomAt(input, map[s.path := Usage(total, total - taken, taken)], g, s)
  {
    RoomyFits(total, taken, g.size);
  }

  /** Downloads of one name on two drives, say: both are planned to land at one place. */
  lemma {:induction false} MayCollide(placeOf: map<Path, Place>, g: Group, h: Group, s: SeedPath)
    requires placeOf == map[Path("/dl1") := ["dl1"], Path("/dl2") := ["dl2"], Path("/seed") := ["seed"]]
    requires g == Group(["a"], 1, Path("/dl1"), ["dl1"], ["dl1", "Show"]) && h == Group(["b"], 1, Path("/dl2"), ["dl2"], ["dl2", "Show"])
    requires s == SeedPath(Tier("seed", Cold, [Path("/seed")], [], 100.0, 100.0), Path("/seed"))
    ensures var input := RoomyInput(placeOf, [Path("/dl1"), Path("/dl2")], s, 3);
            && CanRebase(placeOf, g) && CanRebase(placeOf, h) && ValidTiers(input.tiers) && WellPlaced(input, [g, h])
            && Planned(input, [g, h], [MoveFor(placeOf, g, s), MoveFor(placeOf, h, s)])
            && MoveFor(placeOf, g, s).newContent == ["seed", "Show"] == MoveFor(placeOf, h, s).newContent
  {
    assert ["dl1", "Show"][1..] == ["Show"] && ["dl2", "Show"][1..] == ["Show"];
    assert "Show"[0] != "."[0];
    assert ["dl1"] <= ["dl1", "Show"] && ["dl2"] <= ["dl2", "Show"];
    BothArePlanned(placeOf, g, h, s, [MoveFor(placeOf, g, s), MoveFor(placeOf, h, s)]);
    Rebased(placeOf, g, s);
    MeetExactly(placeOf, g, h, s, s);
  }

  // ----- running it

  /** The net bytes path's volume has gained when, of the first k moves, those in landed have landed. */
  ghost function Flow(volumeOf: map<Path, nat>, moves: seq<MoveEntry>, landed: set<nat>, k: nat, path: Path): int
    requires k <= |moves|
  {
    if k == 0 then 0
    else
      var e := moves[k - 1];
      Flow(volumeOf, moves, landed, k - 1, path) + if k - 1 in landed then Gain(volumeOf, e, path) else 0
  }

  /** The moves that would leave least room on path's volume if they alone landed: those that go there and
      do not come from there. */
  ghost function WorstCase(volumeOf: map<Path, nat>, moves: seq<MoveEntry>, k: nat, path: Path): set<nat>
    requires k <= |moves|
  {
    set i | 0 <= i < k && SameVolume(volumeOf, moves[i].toPath, path) && !SameVolume(volumeOf, moves[i].fromPath, path)
  }

  lemma {:induction false} WorstIsWorst(volumeOf: map<Path, nat>, moves: seq<MoveEntry>, landed: set<nat>, k: nat, n: nat, path: Path)
    requires k <= n <= |moves| && forall i :: 0 <= i < |moves| ==> 0 <= moves[i].item.size
    ensures Flow(volumeOf, moves, landed, k, path) <= Flow(volumeOf, moves, WorstCase(volumeOf, moves, n, path), k, path)
    ensures 0 <= Flow(volumeOf, moves, WorstCase(volumeOf, moves, n, path), k, path)
  {
    if k > 0 {
      WorstIsWorst(volumeOf, moves, landed, k - 1, n, path);
    }
  }

  /** A disk that reads base without the run, when the moves in landed have landed. */
  ghost predicate ReadsAfter(volumeOf: map<Path, nat>, moves: seq<MoveEntry>, base: Usage, landed: set<nat>, k: nat, path: Path, u: Usage)
    requires k <= |moves|
  {
    var flow := Flow(volumeOf, moves, landed, k, path);
    u.used == base.used + flow && u.free == base.free - flow
  }

  function EngineMove(e: MoveEntry): Move {
    Move(e.item.size, e.toPath, 0, e.maxUsedPercent)
  }

  /** Less on the disk never makes verifyRoom refuse. */
  lemma {:induction false} RoomMonotone(u: Usage, v: Usage, m: Move)
    requires u.NoFullerThan(v) && HasRoom(Some(v), m)
    ensures HasRoom(Some(u), m)
  {
    if m.size > 0 {
      PercentMonotone(u.used + m.size, u.free - m.size, v.used + m.size, v.free - m.size);
    }
  }

  /** Move k passes the room check whichever of the earlier moves landed exactly when it passes in the worst
      case: every one that goes to its volume from elsewhere landed, and none that would have freed space
      there. */
  lemma {:induction false} WhateverFailsExactly(volumeOf: map<Path, nat>, moves: seq<MoveEntry>, base: Usage, k: nat, worst: Usage)
    requires k < |moves| && forall i :: 0 <= i < |moves| ==> 0 <= moves[i].item.size
    requires ReadsAfter(volumeOf, moves, base, WorstCase(volumeOf, moves, k, moves[k].toPath), k, moves[k].toPath, worst)
    ensures HasRoom(Some(worst), EngineMove(moves[k]))
       <==> forall landed: set<nat>, u: Usage :: ReadsAfter(volumeOf, moves, base, landed, k, moves[k].toPath, u) ==> HasRoom(Some(u), EngineMove(moves[k]))
  {
    var path := moves[k].toPath;
    if HasRoom(Some(worst), EngineMove(moves[k])) {
      forall landed: set<nat>, u: Usage | ReadsAfter(volumeOf, moves, base, landed, k, path, u)
        ensures HasRoom(Some(u), EngineMove(moves[k]))
      {
        WorstIsWorst(volumeOf, moves, landed, k, k, path);
        RoomMonotone(u, worst, EngineMove(moves[k]));
      }
    }
  }

  /** The first n moves are all in it. */
  ghost predicate HasFirst(landed: set<nat>, n: nat) {
    forall i: nat :: i < n ==> i in landed
  }

  ghost function FirstN(n: nat): (first: set<nat>)
    ensures HasFirst(first, n)
  {
    if n == 0 then {} else FirstN(n - 1) + {n - 1}
  }

  ghost predicate EachAdmitted(volumeOf: map<Path, nat>, usage: map<Path, Usage>, moves: seq<MoveEntry>) {
    forall k :: 0 <= k < |moves| ==> AdmittedInTurn(volumeOf, usage, moves, k)
  }

  ghost predicate AdmittedInTurn(volumeOf: map<Path, nat>, usage: map<Path, Usage>, moves: seq<MoveEntry>, k: nat)
    requires k < |moves|
  {
    Admits(After(volumeOf, usage, moves[..k]), moves[k])
  }

  lemma {:induction false} AdmittedSize(volumeOf: map<Path, nat>, usage: map<Path, Usage>, moves: seq<MoveEntry>, k: nat, path: Path)
    requires Coherent(volumeOf, usage) && EachAdmitted(volumeOf, usage, moves) && k < |moves| && path in usage
    ensures 0 <= moves[k].item.size
    ensures SameVolume(volumeOf, moves[k].toPath, path) ==> moves[k].item.size <= After(volumeOf, usage, moves[..k])[path].free
  {
    assert AdmittedInTurn(volumeOf, usage, moves, k);
    AfterCoherent(volumeOf, usage, moves[..k]);
  }

  /** The plan counts at least what lands on path's volume: the free space exactly, the used space or more. */
  ghost predicate CountsEnough(volumeOf: map<Path, nat>, usage: map<Path, Usage>, moves: seq<MoveEntry>, landed: set<nat>, n: nat, path: Path)
    requires path in usage && n <= |moves|
  {
    var u := After(volumeOf, usage, moves[..n])[path];
    u.free == usage[path].free - Flow(volumeOf, moves, landed, n, path) && u.used >= usage[path].used + Flow(volumeOf, moves, landed, n, path)
  }

  /** It does, after any number of moves that all land. */
  lemma {:induction false} PlanCountsEnough(volumeOf: map<Path, nat>, usage: map<Path, Usage>, moves: seq<MoveEntry>, landed: set<nat>, n: nat, path: Path)
    requires Coherent(volumeOf, usage) && EachAdmitted(volumeOf, usage, moves) && path in usage && n <= |moves| && HasFirst(landed, n)
    ensures CountsEnough(volumeOf, usage, moves, landed, n, path)
  {
    if n > 0 {
      PlanCountsEnough(volumeOf, usage, moves, landed, n - 1, path);
      CountsNext(volumeOf, usage, moves, landed, n - 1, path);
    }
  }

  lemma {:induction false} CountsNext(volumeOf: map<Path, nat>, usage: map<Path, Usage>, moves: seq<MoveEntry>, landed: set<nat>, n: nat, path: Path)
    requires Coherent(volumeOf, usage) && EachAdmitted(volumeOf, usage, moves) && n < |moves| && path in usage && n in landed
    requires CountsEnough(volumeOf, usage, moves, landed, n, path)
    ensures CountsEnough(volumeOf, usage, moves, landed, n + 1, path)
  {
    AdmittedSize(volumeOf, usage, moves, n, path);
    AfterNext(volumeOf, usage, moves, n, path);
    FlowNext(volumeOf, moves, landed, n, path);
  }

  /** What a landed move adds to path's volume. */
  ghost function Gain(volumeOf: map<Path, nat>, e: MoveEntry, path: Path): int {
    (if SameVolume(volumeOf, e.toPath, path) then e.item.size else 0) - (if SameVolume(volumeOf, e.fromPath, path) then e.item.size else 0)
  }

  lemma {:induction false} FlowNext(volumeOf: map<Path, nat>, moves: seq<MoveEntry>, landed: set<nat>, n: nat, path: Path)
    requires n < |moves| && n in landed
    ensures Flow(volumeOf, moves, landed, n + 1, path) == Flow(volumeOf, moves, landed, n, path) + Gain(volumeOf, moves[n], path)
  {
  }

  lemma {:induction false} AfterNext(volumeOf: map<Path, nat>, usage: map<Path, Usage>, moves: seq<MoveEntry>, n: nat, path: Path)
    requires n < |moves| && path in usage && 0 <= moves[n].item.size
    requires SameVolume(volumeOf, moves[n].toPath, path) ==> moves[n].item.size <= After(volumeOf, usage, moves[..n])[path].free
    ensures var u, v := After(volumeOf, usage, moves[..n])[path], After(volumeOf, usage, moves[..n + 1])[path];
            v.free == u.free - Gain(volumeOf, moves[n], path) && v.used >= u.used + Gain(volumeOf, moves[n], path)
  {
    assert moves[..n + 1] == moves[..n] + [moves[n]];
    AfterAppend(volumeOf, usage, moves[..n], moves[n]);
    OneLanding(volumeOf, After(volumeOf, usage, moves[..n]), moves[n], path);
  }

  lemma {:induction false} OneLanding(volumeOf: map<Path, nat>, usage: map<Path, Usage>, e: MoveEntry, path: Path)
    requires path in usage && 0 <= e.item.size && (SameVolume(volumeOf, e.toPath, path) ==> e.item.size <= usage[path].free)
    ensures var u := Landed(volumeOf, usage, e)[path];
            u.free == usage[path].free - Gain(volumeOf, e, path) && u.used >= usage[path].used + Gain(volumeOf, e, path)
  {
  }

  lemma {:induction false} AdmittedHasRoom(usage: map<Path, Usage>, e: MoveEntry)
    requires Admits(usage, e)
    ensures HasRoom(Some(usage[e.toPath]), EngineMove(e))
  {
  }

  /** Run one after another on disks no fuller than planned, a move whose predecessors all landed has room. */
  lemma {:induction false} InOrderNeverRefused(volumeOf: map<Path, nat>, usage: map<Path, Usage>, moves: seq<MoveEntry>, k: nat, landed: set<nat>, base: Usage, u: Usage)
    requires Coherent(volumeOf, usage) && EachAdmitted(volumeOf, usage, moves) && k < |moves| && HasFirst(landed, k)
    requires moves[k].toPath in usage && base.NoFullerThan(usage[moves[k].toPath])
    requires ReadsAfter(volumeOf, moves, base, landed, k, moves[k].toPath, u)
    ensures HasRoom(Some(u), EngineMove(moves[k]))
  {
    var path := moves[k].toPath;
    PlanCountsEnough(volumeOf, usage, moves, landed, k, path);
    assert AdmittedInTurn(volumeOf, usage, moves, k);
    AdmittedHasRoom(After(volumeOf, usage, moves[..k]), moves[k]);
    RoomMonotone(u, After(volumeOf, usage, moves[..k])[path], EngineMove(moves[k]));
  }

  /** No earlier move frees space on path's volume. */
  ghost predicate NothingFreedOn(volumeOf: map<Path, nat>, moves: seq<MoveEntry>, k: nat, path: Path)
    requires k <= |moves|
  {
    forall i :: 0 <= i < k ==> !SameVolume(volumeOf, moves[i].fromPath, path)
  }

  lemma {:induction false} WorstIsAll(volumeOf: map<Path, nat>, moves: seq<MoveEntry>, landed: set<nat>, k: nat, n: nat, path: Path)
    requires k <= n <= |moves| && NothingFreedOn(volumeOf, moves, n, path) && HasFirst(landed, n)
    ensures Flow(volumeOf, moves, WorstCase(volumeOf, moves, n, path), k, path) == Flow(volumeOf, moves, landed, k, path)
  {
    if k > 0 {
      WorstIsAll(volumeOf, moves, landed, k - 1, n, path);
    }
  }

  /** With no download drive on a seed path's volume, a move has room there whichever of the earlier ones
      failed. */
  lemma {:induction false} NeverRefusedApart(volumeOf: map<Path, nat>, usage: map<Path, Usage>, moves: seq<MoveEntry>, k: nat, landed: set<nat>, base: Usage, u: Usage)
    requires Coherent(volumeOf, usage) && EachAdmitted(volumeOf, usage, moves) && k < |moves|
    requires moves[k].toPath in usage && base.NoFullerThan(usage[moves[k].toPath]) && NothingFreedOn(volumeOf, moves, k, moves[k].toPath)
    requires ReadsAfter(volumeOf, moves, base, landed, k, moves[k].toPath, u)
    ensures HasRoom(Some(u), EngineMove(moves[k]))
  {
    var path := moves[k].toPath;
    var all := FirstN(k);
    forall i | 0 <= i < |moves|
      ensures 0 <= moves[i].item.size
    {
      AdmittedSize(volumeOf, usage, moves, i, path);
    }
    WorstIsWorst(volumeOf, moves, landed, k, k, path);
    WorstIsAll(volumeOf, moves, all, k, k, path);
    PlanCountsEnough(volumeOf, usage, moves, all, k, path);
    assert AdmittedInTurn(volumeOf, usage, moves, k);
    AdmittedHasRoom(After(volumeOf, usage, moves[..k]), moves[k]);
    RoomMonotone(u, After(volumeOf, usage, moves[..k])[path], EngineMove(moves[k]));
  }

  /** The plan itself is one: its moves are each admitted in turn. */
  lemma {:induction false} PlanIsAdmitted(input: DownloadsInput, groups: seq<Group>, entries: seq<DownloadMove>)
    requires ValidTiers(input.tiers) && WellPlaced(input, groups) && Planned(input, groups, entries)
    ensures EachAdmitted(input.volumeOf, input.usage, Moves(entries))
  {
    PlanIsGood(input, groups, entries);
    forall k | 0 <= k < |Moves(entries)|
      ensures AdmittedInTurn(input.volumeOf, input.usage, Moves(entries), k)
    {
      assert FitsInTurn(input, entries, k);
      assert Moves(entries)[..k] == Moves(entries[..k]);
    }
  }

  /** So a plan's moves, run in order, pass the room check whenever their predecessors landed ... */
  lemma {:induction false} PlannedInOrder(input: DownloadsInput, groups: seq<Group>, entries: seq<DownloadMove>, k: nat, landed: set<nat>, base: Usage, u: Usage)
    requires ValidTiers(input.tiers) && WellPlaced(input, groups) && Planned(input, groups, entries) && Coherent(input.volumeOf, input.usage)
    requires k < |entries| && entries[k].seed.path in input.usage && HasFirst(landed, k) && base.NoFullerThan(input.usage[entries[k].seed.path])
    requires ReadsAfter(input.volumeOf, Moves(entries), base, landed, k, entries[k].seed.path, u)
    ensures HasRoom(Some(u), EngineMove(AsMove(entries[k])))
  {
    PlanIsAdmitted(input, groups, entries);
    InOrderNeverRefused(input.volumeOf, input.usage, Moves(entries), k, landed, base, u);
  }

  lemma {:induction false} NoneFreed(input: DownloadsInput, groups: seq<Group>, entries: seq<DownloadMove>, k: nat)
    requires ValidTiers(input.tiers) && WellPlaced(input, groups) && Planned(input, groups, entries) && k < |entries|
    requires forall g :: g in groups ==> !SameVolume(input.volumeOf, g.tierPath, entries[k].seed.path)
    ensures NothingFreedOn(input.volumeOf, Moves(entries), k, entries[k].seed.path)
  {
    PlanIsGood(input, groups, entries);
    forall i | 0 <= i < k
      ensures !SameVolume(input.volumeOf, Moves(entries)[i].fromPath, entries[k].seed.path)
    {
      assert GoodMove(input, groups, entries[i]);
    }
  }

  /** ... and whichever of them failed, when no group comes from the destination's volume. */
  lemma {:induction false} PlannedApart(input: DownloadsInput, groups: seq<Group>, entries: seq<DownloadMove>, k: nat, landed: set<nat>, base: Usage, u: Usage)
    requires ValidTiers(input.tiers) && WellPlaced(input, groups) && Planned(input, groups, entries) && Coherent(input.volumeOf, input.usage)
    requires k < |entries| && entries[k].seed.path in input.usage && base.NoFullerThan(input.usage[entries[k].seed.path])
    requires forall g :: g in groups ==> !SameVolume(input.volumeOf, g.tierPath, entries[k].seed.path)
    requires ReadsAfter(input.volumeOf, Moves(entries), base, landed, k, entries[k].seed.path, u)
    ensures HasRoom(Some(u), EngineMove(AsMove(entries[k])))
  {
    PlanIsAdmitted(input, groups, entries);
    NoneFreed(input, groups, entries, k);
    NeverRefusedApart(input.volumeOf, input.usage, Moves(entries), k, landed, base, u);
  }

  // ----- with space held back

  /** A seed disk when the moves in landed have landed and downloads have written some bytes. */
  ghost predicate ReadsWhile(volumeOf: map<Path, nat>, moves: seq<MoveEntry>, disk: Usage, bytes: nat, landed: set<nat>, k: nat, path: Path, u: Usage)
    requires k <= |moves|
  {
    var flow := Flow(volumeOf, moves, landed, k, path);
    u.used == disk.used + bytes + flow && u.free == disk.free - bytes - flow
  }

  /** Run in order on disks with space held back for downloads, a move whose predecessors landed passes, with
      any part of the reserved bytes written, where room is kept. */
  lemma {:induction false} ReservedInOrder(volumeOf: map<Path, nat>, usage: map<Path, Usage>, moves: seq<MoveEntry>, k: nat, landed: set<nat>,
                                           disk: Usage, n: nat, bytes: nat, u: Usage)
    requires Coherent(volumeOf, usage) && EachAdmitted(volumeOf, usage, moves) && k < |moves| && HasFirst(landed, k)
    requires moves[k].toPath in usage && usage[moves[k].toPath] == PlanRuns.Reserve(disk, n)
    requires bytes <= n && ReservedRuns.RoomKept(disk, n, moves[k].maxUsedPercent)
    requires disk.used + Flow(volumeOf, moves, landed, k, moves[k].toPath) >= 0
    requires ReadsWhile(volumeOf, moves, disk, bytes, landed, k, moves[k].toPath, u)
    ensures HasRoom(Some(u), EngineMove(moves[k]))
  {
    var path := moves[k].toPath;
    if n <= disk.free {
      InOrderNeverRefused(volumeOf, usage, moves, k, landed, Usage(disk.total, disk.free - bytes, disk.used + bytes), u);
    } else {
      PlanCountsEnough(volumeOf, usage, moves, landed, k, path);
      ReservedRuns.LandedTotal(volumeOf, usage, moves[..k], path);
      assert AdmittedInTurn(volumeOf, usage, moves, k);
      RoomWhileWriting(After(volumeOf, usage, moves[..k])[path], moves[k], disk, n, bytes, Flow(volumeOf, moves, landed, k, path), u);
    }
  }

  lemma {:induction false} RoomWhileWriting(planned: Usage, e: MoveEntry, disk: Usage, n: nat, bytes: nat, flow: int, u: Usage)
    requires n > disk.free && bytes <= n && ReservedRuns.RoomKept(disk, n, e.maxUsedPercent) && disk.used + flow >= 0
    requires Fits(planned, e.item.size, e.maxUsedPercent) && planned.total == disk.total
    requires planned.used >= disk.used + n + flow && planned.free == -flow
    requires u.used == disk.used + bytes + flow && u.free == disk.free - bytes - flow
    ensures HasRoom(Some(u), EngineMove(e))
  {
    if e.item.size > 0 {
      ReservedRuns.RoomByLevel(disk, n, e.maxUsedPercent, planned, flow, e.item.size, u);
    }
  }

  /** With no earlier source on the destination's volume it passes whichever of them failed, and whatever was
      reserved: nothing is planned on room a plan does not free. */
  lemma {:induction false} ReservedApart(volumeOf: map<Path, nat>, usage: map<Path, Usage>, moves: seq<MoveEntry>, k: nat, landed: set<nat>,
                                         disk: Usage, n: nat, bytes: nat, u: Usage)
    requires Coherent(volumeOf, usage) && EachAdmitted(volumeOf, usage, moves) && k < |moves|
    requires moves[k].toPath in usage && usage[moves[k].toPath] == PlanRuns.Reserve(disk, n) && bytes <= n
    requires NothingFreedOn(volumeOf, moves, k, moves[k].toPath)
    requires ReadsWhile(volumeOf, moves, disk, bytes, landed, k, moves[k].toPath, u)
    ensures HasRoom(Some(u), EngineMove(moves[k]))
  {
    var path := moves[k].toPath;
    if n <= disk.free {
      NeverRefusedApart(volumeOf, usage, moves, k, landed, Usage(disk.total, disk.free - bytes, disk.used + bytes), u);
    } else {
      PlanCountsEnough(volumeOf, usage, moves, FirstN(k), k, path);
      OnlyArrivals(volumeOf, usage, moves, k, path);
      assert AdmittedInTurn(volumeOf, usage, moves, k);
    }
  }

  /** So it is for every plan built with that space held back ... */
  lemma {:induction false} PlannedReservedInOrder(input: DownloadsInput, groups: seq<Group>, entries: seq<DownloadMove>, k: nat, landed: set<nat>,
                                                  disk: Usage, n: nat, bytes: nat, u: Usage)
    requires ValidTiers(input.tiers) && WellPlaced(input, groups) && Planned(input, groups, entries) && Coherent(input.volumeOf, input.usage)
    requires k < |entries| && entries[k].seed.path in input.usage && input.usage[entries[k].seed.path] == PlanRuns.Reserve(disk, n)
    requires HasFirst(landed, k) && bytes <= n && ReservedRuns.RoomKept(disk, n, entries[k].seed.tier.max)
    requires disk.used + Flow(input.volumeOf, Moves(entries), landed, k, entries[k].seed.path) >= 0
    requires ReadsWhile(input.volumeOf, Moves(entries), disk, bytes, landed, k, entries[k].seed.path, u)
    ensures HasRoom(Some(u), EngineMove(AsMove(entries[k])))
  {
    PlanIsAdmitted(input, groups, entries);
    ReservedInOrder(input.volumeOf, input.usage, Moves(entries), k, landed, disk, n, bytes, u);
  }

  /** ... and when no group comes from the destination's volume. */
  lemma {:induction false} PlannedReservedApart(input: DownloadsInput, groups: seq<Group>, entries: seq<DownloadMove>, k: nat, landed: set<nat>,
                                                disk: Usage, n: nat, bytes: nat, u: Usage)
    requires ValidTiers(input.tiers) && WellPlaced(input, groups) && Planned(input, groups, entries) && Coherent(input.volumeOf, input.usage)
    requires k < |entries| && entries[k].seed.path in input.usage && input.usage[entries[k].seed.path] == PlanRuns.Reserve(disk, n) && bytes <= n
    requires forall g :: g in groups ==> !SameVolume(input.volumeOf, g.tierPath, entries[k].seed.path)
    requires ReadsWhile(input.volumeOf, Moves(entries), disk, bytes, landed, k, entries[k].seed.path, u)
    ensures HasRoom(Some(u), EngineMove(AsMove(entries[k])))
  {
    PlanIsAdmitted(input, groups, entries);
    NoneFreed(input, groups, entries, k);
    ReservedApart(input.volumeOf, input.usage, Moves(entries), k, landed, disk, n, bytes, u);
  }

  lemma {:induction false} OnlyArrivals(volumeOf: map<Path, nat>, usage: map<Path, Usage>, moves: seq<MoveEntry>, k: nat, path: Path)
    requires Coherent(volumeOf, usage) && EachAdmitted(volumeOf, usage, moves) && k <= |moves| && path in usage && NothingFreedOn(volumeOf, moves, k, path)
    ensures Flow(volumeOf, moves, FirstN(k), k, path) >= 0
  {
    forall i | 0 <= i < |moves|
      ensures 0 <= moves[i].item.size
    {
      AdmittedSize(volumeOf, usage, moves, i, path);
    }
    WorstIsAll(volumeOf, moves, FirstN(k), k, k, path);
    WorstIsWorst(volumeOf, moves, FirstN(k), k, k, path);
  }
}
