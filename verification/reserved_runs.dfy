/** Plans built on disks with space held back for downloads, run while those downloads go on writing
    (internal/engine, internal/planner, internal/mover). */
module ReservedRuns {
  import opened DiskUsage
  import opened PlannerModel
  import opened Planner
  import opened Build
  import opened Ledger
  import opened Mover
  import opened MoverProofs
  import opened MoverRuns
  import opened Execution
  import opened PlanRuns

  // ----- when a reservation is safe to plan on

  /** The highest level, in bytes used, that a plan on the reserved disk lets an entry with that ceiling reach. */
  function HighestPlanned(disk: Usage, n: nat, ceiling: real): int {
    var byCeiling := (ceiling * (disk.used + n) as real / 100.0).Floor;
    if byCeiling < disk.total then byCeiling else disk.total
  }

  /** The level is one the disk itself can reach under the ceiling. */
  predicate Reachable(disk: Usage, level: int, ceiling: real) {
    level <= disk.used + disk.free && level as real * 100.0 <= ceiling * (disk.used + disk.free) as real
  }

  /** What can be checked before planning: the reservation fits in the free space - or what does not fit,
      and is counted as used without being counted against free, cannot raise a planned level beyond the
      disk's own ceiling. A level of n or less leaves no room for anything but the reserved bytes. */
  predicate RoomKept(disk: Usage, n: nat, ceiling: real) {
    n <= disk.free || HighestPlanned(disk, n, ceiling) <= n || Reachable(disk, HighestPlanned(disk, n, ceiling), ceiling)
  }

  lemma {:induction false} LevelBelow(disk: Usage, n: nat, ceiling: real, level: int)
    requires level <= disk.total && level as real * 100.0 <= ceiling * (disk.used + n) as real
    ensures level <= HighestPlanned(disk, n, ceiling)
  {
    var x := ceiling * (disk.used + n) as real / 100.0;
    assert level as real <= x;
    assert level <= x.Floor;
  }

  lemma {:induction false} LowerReachable(disk: Usage, level: int, high: int, ceiling: real)
    requires level <= high && Reachable(disk, high, ceiling)
    ensures Reachable(disk, level, ceiling)
  {
  }

  /** A percentage in plain numbers. */
  lemma {:induction false} PercentBound(used: nat, free: nat, ceiling: real)
    requires used + free > 0
    ensures PercentUsed(used, free) <= ceiling <==> used as real * 100.0 <= ceiling * (used + free) as real
  {
    var d, q := (used + free) as real, PercentUsed(used, free);
    assert q * d == used as real * 100.0;
    if q <= ceiling {
      assert (ceiling - q) * d >= 0.0;
    } else {
      assert (q - ceiling) * d > 0.0;
    }
  }

  // ----- what the plan counted on, and what the disk reads

  /** A disk whose readings, with the run's own bytes netted out, are the ones before it and what downloads
      have written since. */
  ghost predicate ReadsWith(volumeOf: map<Path, nat>, entries: seq<MoveEntry>, disk: Usage, bytes: nat, written: seq<int>, freed: seq<int>, path: Path, u: Usage)
    requires |written| == |freed| == |entries|
  {
    var flow := Into(volumeOf, entries, written, path) - OutOf(volumeOf, entries, freed, path);
    u.used == disk.used + bytes + flow && u.free == disk.free - bytes - flow
  }

  /** The arithmetic of it, where the reservation does not fit in the free space. planned is the projection
      an entry of size x was admitted on, after a planned flow to the volume; u, the reading at its turn. */
  lemma {:induction false} RoomByLevel(disk: Usage, n: nat, ceiling: real, planned: Usage, flow: int, x: int, u: Usage)
    requires n > disk.free && RoomKept(disk, n, ceiling)
    requires Fits(planned, x, ceiling) && planned.total == disk.total && x > 0
    requires planned.free == -flow && planned.used >= disk.used + n + flow && disk.used + flow >= 0
    requires u.used <= disk.used + n + flow && u.used + u.free == disk.used + disk.free
    ensures x <= u.free && PercentUsed(u.used + x, u.free - x) <= ceiling
  {
    LevelPlanned(disk, n, ceiling, planned, flow, x);
    LevelKept(disk, n, ceiling, disk.used + n + flow + x);
    ReachedByReading(disk, ceiling, disk.used + n + flow + x, x, u);
  }

  /** The level an entry was planned to reach is one the ceiling allows on the reserved disk. */
  lemma {:induction false} LevelPlanned(disk: Usage, n: nat, ceiling: real, planned: Usage, flow: int, x: int)
    requires Fits(planned, x, ceiling) && planned.total == disk.total && x > 0
    requires planned.free == -flow && planned.used >= disk.used + n + flow && disk.used + flow >= 0
    ensures disk.used + n + flow + x <= HighestPlanned(disk, n, ceiling)
  {
    var level := disk.used + n + flow + x;
    PercentMonotone(level, planned.free - x, planned.used + x, planned.free - x);
    PercentBound(level, planned.free - x, ceiling);
    assert level + (planned.free - x) == disk.used + n;
    LevelBelow(disk, n, ceiling, level);
  }

  lemma {:induction false} LevelKept(disk: Usage, n: nat, ceiling: real, level: int)
    requires n > disk.free && RoomKept(disk, n, ceiling) && n < level <= HighestPlanned(disk, n, ceiling)
    ensures Reachable(disk, level, ceiling)
  {
    LowerReachable(disk, level, HighestPlanned(disk, n, ceiling), ceiling);
  }

  lemma {:induction false} ReachedByReading(disk: Usage, ceiling: real, level: int, x: int, u: Usage)
    requires Reachable(disk, level, ceiling) && x > 0
    requires u.used + x <= level && u.used + u.free == disk.used + disk.free
    ensures x <= u.free && PercentUsed(u.used + x, u.free - x) <= ceiling
  {
    PercentBound(u.used + x, u.free - x, ceiling);
  }

  /** The bytes on a volume never go below none: what leaves was there. */
  lemma {:induction false} FlowFloor(volumeOf: map<Path, nat>, usage: map<Path, Usage>, entries: seq<MoveEntry>, path: Path, start: nat, k: nat)
    requires Sound(volumeOf, usage, entries) && start <= k <= |entries|
    ensures NetIn(volumeOf, entries, path, start) + Into(volumeOf, entries[start..k], Sizes(entries[start..k]), path) >= -OutOf(volumeOf, entries, Sizes(entries), path)
  {
    LeavesWhatWasThere(volumeOf, usage, entries, path, start);
    SameSizes(volumeOf, usage, entries, start, k);
    NothingNegative(volumeOf, entries[start..k], path);
  }

  lemma {:induction false} NothingNegative(volumeOf: map<Path, nat>, entries: seq<MoveEntry>, path: Path)
    requires forall i :: 0 <= i < |entries| ==> 0 <= entries[i].item.size
    ensures Into(volumeOf, entries, Sizes(entries), path) >= 0
    decreases |entries|
  {
    if entries != [] {
      assert Sizes(entries)[..|entries| - 1] == Sizes(entries[..|entries| - 1]);
      NothingNegative(volumeOf, entries[..|entries| - 1], path);
    }
  }

  lemma {:induction false} TotalsKept(volumeOf: map<Path, nat>, usage: map<Path, Usage>, entries: seq<MoveEntry>, start: nat, k: nat, path: Path)
    requires path in usage && start <= k <= |entries|
    ensures Reserved(volumeOf, After(volumeOf, usage, entries[..start]), entries[start..k])[path].total == usage[path].total
  {
    LandedTotal(volumeOf, usage, entries[..start], path);
    ReservedTotal(volumeOf, After(volumeOf, usage, entries[..start]), entries[start..k], path);
  }

  lemma {:induction false} LandedTotal(volumeOf: map<Path, nat>, usage: map<Path, Usage>, entries: seq<MoveEntry>, path: Path)
    requires path in usage
    ensures After(volumeOf, usage, entries)[path].total == usage[path].total
    decreases |entries|
  {
    if entries != [] {
      LandedTotal(volumeOf, usage, entries[..|entries| - 1], path);
    }
  }

  lemma {:induction false} ReservedTotal(volumeOf: map<Path, nat>, usage: map<Path, Usage>, entries: seq<MoveEntry>, path: Path)
    requires path in usage
    ensures Reserved(volumeOf, usage, entries)[path].total == usage[path].total
    decreases |entries|
  {
    if entries != [] {
      ReservedTotal(volumeOf, usage, entries[..|entries| - 1], path);
    }
  }

  /** An entry placed on a disk with more reserved than free still fits at its turn. */
  lemma {:induction false} StillFitsReserved(volumeOf: map<Path, nat>, usage: map<Path, Usage>, entries: seq<MoveEntry>, start: nat, k: nat,
                                             disk: Usage, n: nat, bytes: nat, written: seq<int>, freed: seq<int>, u: Usage)
    requires Coherent(volumeOf, usage) && Sound(volumeOf, usage, entries) && |written| == |freed| == |entries|
    requires PlacedFrom(volumeOf, usage, entries, start, k) && entries[k].toPath in usage && usage[entries[k].toPath] == Reserve(disk, n)
    requires n > disk.free && RoomKept(disk, n, entries[k].maxUsedPercent) && bytes <= n
    requires OutOf(volumeOf, entries, Sizes(entries), entries[k].toPath) <= disk.used
    requires UpTo(volumeOf, entries, written, freed, entries[k].toPath, start, k)
    requires ReadsWith(volumeOf, entries, disk, bytes, written, freed, entries[k].toPath, u)
    ensures HasRoom(Some(u), MoveOf(entries[k]))
  {
    var planned, flow := PlannedReading(volumeOf, usage, entries, start, k, disk, n);
    FlowBound(volumeOf, entries, written, freed, entries[k].toPath, start, k);
    RoomAtTurn(disk, n, bytes, planned, flow, Into(volumeOf, entries, written, entries[k].toPath) - OutOf(volumeOf, entries, freed, entries[k].toPath), entries[k], u);
  }

  /** The projection an entry was admitted on, in plain numbers. */
  lemma {:induction false} PlannedReading(volumeOf: map<Path, nat>, usage: map<Path, Usage>, entries: seq<MoveEntry>, start: nat, k: nat, disk: Usage, n: nat)
    returns (planned: Usage, flow: int)
    requires Coherent(volumeOf, usage) && Sound(volumeOf, usage, entries)
    requires PlacedFrom(volumeOf, usage, entries, start, k) && entries[k].toPath in usage && usage[entries[k].toPath] == Reserve(disk, n)
    requires n > disk.free && OutOf(volumeOf, entries, Sizes(entries), entries[k].toPath) <= disk.used
    ensures flow == NetIn(volumeOf, entries, entries[k].toPath, start) + Into(volumeOf, entries[start..k], Sizes(entries[start..k]), entries[k].toPath)
    ensures Fits(planned, entries[k].item.size, entries[k].maxUsedPercent) && planned.total == disk.total
    ensures planned.used == disk.used + n + flow && (planned.free > 0 ==> planned.free == -flow) && disk.used + flow >= 0
  {
    var path := entries[k].toPath;
    planned := Reserved(volumeOf, After(volumeOf, usage, entries[..start]), entries[start..k])[path];
    flow := NetIn(volumeOf, entries, path, start) + Into(volumeOf, entries[start..k], Sizes(entries[start..k]), path);
    TestedOn(volumeOf, usage, entries, start, k, path);
    TotalsKept(volumeOf, usage, entries, start, k, path);
    FlowFloor(volumeOf, usage, entries, path, start, k);
  }

  lemma {:induction false} RoomAtTurn(disk: Usage, n: nat, bytes: nat, planned: Usage, flow: int, now: int, e: MoveEntry, u: Usage)
    requires n > disk.free && RoomKept(disk, n, e.maxUsedPercent) && bytes <= n && now <= flow
    requires Fits(planned, e.item.size, e.maxUsedPercent) && planned.total == disk.total
    requires planned.used == disk.used + n + flow && (planned.free > 0 ==> planned.free == -flow) && disk.used + flow >= 0
    requires u.used == disk.used + bytes + now && u.free == disk.free - bytes - now
    ensures HasRoom(Some(u), MoveOf(e))
  {
    if e.item.size > 0 {
      RoomByLevel(disk, n, e.maxUsedPercent, planned, flow, e.item.size, u);
    }
  }

  /** In every state of every run of a sound plan, with any part of the reserved bytes written by then, an
      entry whose turn comes on a disk where room is kept passes the room check. */
  lemma {:induction false} ReservedNeverRefused(volumeOf: map<Path, nat>, usage: map<Path, Usage>, entries: seq<MoveEntry>, job: Job, s: State, k: VolumeKey,
                                                disk: Usage, n: nat, bytes: nat, written: seq<int>, freed: seq<int>, u: Usage)
    requires Coherent(volumeOf, usage) && Sound(volumeOf, usage, entries) && Runs(job, entries, volumeOf)
    requires Inv(job, s) && !s.done && job.phases != [] && Busy(s, k) && s.workers[k].stage == Verifying
    requires Head(s, k) < |entries| && entries[Head(s, k)].toPath in usage && usage[entries[Head(s, k)].toPath] == Reserve(disk, n)
    requires bytes <= n && RoomKept(disk, n, entries[Head(s, k)].maxUsedPercent)
    requires OutOf(volumeOf, entries, Sizes(entries), entries[Head(s, k)].toPath) <= disk.used
    requires Physical(job, s, written, freed)
    requires ReadsWith(volumeOf, entries, disk, bytes, written, freed, entries[Head(s, k)].toPath, u)
    ensures HasRoom(Some(u), job.moves[Head(s, k)])
  {
    var h := Head(s, k);
    if n <= disk.free {
      NeverRefused(volumeOf, usage, entries, job, s, k, Usage(disk.total, disk.free - bytes, disk.used + bytes), written, freed, u);
    } else {
      var start := PhaseStart(volumeOf, usage, entries, h);
      AtItsTurn(volumeOf, usage, entries, job, s, k, written, freed, start);
      StillFitsReserved(volumeOf, usage, entries, start, h, disk, n, bytes, written, freed, u);
      assert job.moves[h] == MoveOf(entries[h]);
    }
  }

  /** Any plan Build returns on disks with space held back for downloads, run in any interleaving, with any
      failures, and with any part of the reserved bytes written by then - before or after the run frees room
      for them - is never refused by the room check on a disk where room is kept. */
  lemma {:induction false} BuiltPlanNeverRefused(input: Input, plan: Plan, disks: map<Path, Usage>, reserved: map<Path, int>, bytes: nat,
                                                 job: Job, events: seq<Event>, k: VolumeKey, written: seq<int>, freed: seq<int>, u: Usage)
    requires ValidTiers(input.layout.tiers) && Coherent(input.layout.volumeOf, input.usage)
    requires Built(input, plan)
    requires input.usage == ApplyReservations(disks, reserved)
    requires Runs(job, plan.entries, input.layout.volumeOf) && Reached(job, Start(job), events).Some?
    requires var s := Reached(job, Start(job), events).value;
             && Enabled(job, s, Room(k, Some(u))) && Head(s, k) < |plan.entries| && Physical(job, s, written, freed)
             && var e := plan.entries[Head(s, k)];
                && e.toPath in disks && bytes <= HeldOn(reserved, e.toPath) && RoomKept(disks[e.toPath], HeldOn(reserved, e.toPath), e.maxUsedPercent)
                && WeightOn(input.layout.volumeOf, Mapped(FillItem, input.items), e.toPath) <= disks[e.toPath].used
                && ReadsWith(input.layout.volumeOf, plan.entries, disks[e.toPath], bytes, written, freed, e.toPath, u)
    ensures HasRoom(Some(u), job.moves[Head(Reached(job, Start(job), events).value, k)])
  {
    EveryRunInv(job, events);
    var s := Reached(job, Start(job), events).value;
    var p := plan.entries[Head(s, k)].toPath;
    var site, reclaims, fills :| CandidatesOf(input, site, reclaims, fills) && GoodPlan(input, site, reclaims, fills, plan);
    OutflowBounded(input, site, reclaims, fills, plan, p);
    ReservedNeverRefused(input.layout.volumeOf, input.usage, plan.entries, job, s, k, disks[p], HeldOn(reserved, p), bytes, written, freed, u);
  }

  /** The bytes held back on a path's disk. */
  function HeldOn(reserved: map<Path, int>, path: Path): nat {
    if path in reserved && reserved[path] > 0 then reserved[path] else 0
  }
}
