/** What the library planner works on: tiers, items and the moves it plans (internal/model, internal/planner). */
module PlannerModel {
  import opened DiskUsage

  datatype Option<+T> = None | Some(value: T)

  datatype Role = Hot | Cold
  datatype MediaType = Movie | TV

  const DEFAULT_HOT_MAX_USED_PERCENT := 97.0

  datatype Tier = Tier(name: string, role: Role, paths: seq<Path>, media: seq<MediaType>, target: real, max: real) {
    /** The hard ceiling: a hot tier that sets none gets the built-in default. */
    function EffectiveMax(): real {
      if role == Hot && max == 0.0 then DEFAULT_HOT_MAX_USED_PERCENT else max
    }

    predicate Accepts(mt: MediaType) {
      mt in media
    }
  }

  function TargetCeiling(t: Tier): real { t.target }
  function MaxCeiling(t: Tier): real { t.max }
  function HotCeiling(t: Tier): real { t.EffectiveMax() }

  /** What configuration validation guarantees and planning relies on. */
  ghost predicate ValidTiers(tiers: seq<Tier>) {
    && (forall i :: 0 <= i < |tiers| && tiers[i].role == Cold ==> tiers[i].target <= tiers[i].max)
    && (forall i, j, p :: 0 <= i < |tiers| && 0 <= j < |tiers| && p in tiers[i].paths && p in tiers[j].paths ==> i == j)
  }

  datatype Key = Key(app: string, id: int)

  datatype Item = Item(key: Key, mediaType: MediaType, root: Path, size: int,
                       favorite: bool, upcoming: bool, monitored: bool, cutoffNotMet: bool)

  datatype Decision = ColdEligible | Keep | Protected

  datatype ItemEval = ItemEval(item: Item, decision: Decision, score: real)

  datatype Reason = MarkedFavorite | NotReleasedYet | UpgradeExpected

  /** An item to pull back from cold storage, why, and the cold tier it is on. */
  datatype Reclaim = Reclaim(eval: ItemEval, reason: Reason, fromTier: Tier) {
    function Size(): int { eval.item.size }
    function Media(): MediaType { eval.item.mediaType }
  }

  datatype MoveEntry = MoveEntry(item: Item, fromTier: string, fromRole: Role, fromPath: Path,
                                 toTier: string, toPath: Path, phase: nat, maxUsedPercent: real)

  /** Tiers and volumes: the part of the input no planning step changes. */
  datatype Layout = Layout(tiers: seq<Tier>, volumeOf: map<Path, nat>)

  /** One place something could be put: a path, under its tier's policy. */
  datatype Slot = Slot(tier: Tier, path: Path)

  function PathSlots(tier: Tier, paths: seq<Path>): seq<Slot> {
    if paths == [] then [] else [Slot(tier, paths[0])] + PathSlots(tier, paths[1..])
  }

  /** Every path of every tier, in configured order. */
  function Slots(tiers: seq<Tier>): seq<Slot> {
    if tiers == [] then [] else PathSlots(tiers[0], tiers[0].paths) + Slots(tiers[1..])
  }

  lemma {:induction false} PathSlotsFromTier(tier: Tier, paths: seq<Path>, s: Slot)
    requires s in PathSlots(tier, paths)
    ensures s.tier == tier && s.path in paths
  {
    if s != Slot(tier, paths[0]) {
      PathSlotsFromTier(tier, paths[1..], s);
    }
  }

  lemma {:induction false} SlotsFromTiers(tiers: seq<Tier>, s: Slot)
    requires s in Slots(tiers)
    ensures s.tier in tiers && s.path in s.tier.paths
  {
    if s in PathSlots(tiers[0], tiers[0].paths) {
      PathSlotsFromTier(tiers[0], tiers[0].paths, s);
    } else {
      SlotsFromTiers(tiers[1..], s);
    }
  }

  /** Whether size bytes can land on a path at u without passing ceiling percent used, or running
      out of space to write them. */
  predicate Fits(u: Usage, size: int, ceiling: real) {
    && u.total != 0
    && 0 <= size <= u.free
    && u.Plus(size).UsedPercent() <= ceiling
    && u.Plus(size).used <= u.total
  }

  /** What fits a disk fits a less full one of the same size, under the same or a higher ceiling. */
  lemma {:induction false} FitsMonotone(u: Usage, v: Usage, size: int, ceiling: real, ceiling': real)
    requires u.NoFullerThan(v) && u.total == v.total && ceiling <= ceiling'
    requires Fits(v, size, ceiling)
    ensures Fits(u, size, ceiling')
  {
    PlusMonotone(u, v, size);
    PlusMonotone(u.Plus(size), v.Plus(size), 0);
  }

  // ----- what a list of moves does to the usage map

  /** A move that has landed: its bytes are gone from the source volume and on the destination's. */
  function Landed(volumeOf: map<Path, nat>, usage: map<Path, Usage>, e: MoveEntry): map<Path, Usage> {
    Applied(volumeOf, Applied(volumeOf, usage, e.fromPath, -e.item.size), e.toPath, e.item.size)
  }

  /** The usage map once every entry has landed. */
  function After(volumeOf: map<Path, nat>, usage: map<Path, Usage>, entries: seq<MoveEntry>): map<Path, Usage>
    ensures After(volumeOf, usage, entries).Keys == usage.Keys
  {
    if entries == [] then usage
    else Landed(volumeOf, After(volumeOf, usage, entries[..|entries| - 1]), entries[|entries| - 1])
  }

  /** The usage map with room held for every entry at its destination and nothing freed yet: all
      that entries running at the same time may count on. */
  function Reserved(volumeOf: map<Path, nat>, usage: map<Path, Usage>, entries: seq<MoveEntry>): map<Path, Usage>
    ensures Reserved(volumeOf, usage, entries).Keys == usage.Keys
  {
    if entries == [] then usage
    else
      var e := entries[|entries| - 1];
      Applied(volumeOf, Reserved(volumeOf, usage, entries[..|entries| - 1]), e.toPath, e.item.size)
  }

  /** The entry fits its destination, under the ceiling it carries. */
  predicate Admits(usage: map<Path, Usage>, e: MoveEntry) {
    e.toPath in usage && Fits(usage[e.toPath], e.item.size, e.maxUsedPercent)
  }

  /** Entry k was placed in the phase whose entries begin at start: everything before start is in a
      lower phase and counted as landed, everything from start to k shares k's phase and only its
      destination room is counted. */
  ghost predicate PlacedFrom(volumeOf: map<Path, nat>, usage: map<Path, Usage>, entries: seq<MoveEntry>, start: nat, k: nat) {
    && start <= k < |entries|
    && (forall i :: 0 <= i < start ==> entries[i].phase < entries[k].phase)
    && (forall i :: start <= i < k ==> entries[i].phase == entries[k].phase)
    && AdmittedAfter(volumeOf, usage, entries[..start], entries[start..k], entries[k])
  }

  /** With the lower phases landed and room held for the earlier entries of its own, e fits. */
  ghost predicate AdmittedAfter(volumeOf: map<Path, nat>, usage: map<Path, Usage>, lower: seq<MoveEntry>, same: seq<MoveEntry>, e: MoveEntry) {
    e.fromPath in usage && Admits(Reserved(volumeOf, After(volumeOf, usage, lower), same), e)
  }

  /** Every entry of the plan was placed that way. */
  ghost predicate Sound(volumeOf: map<Path, nat>, usage: map<Path, Usage>, entries: seq<MoveEntry>) {
    forall k :: 0 <= k < |entries| ==> Placed(volumeOf, usage, entries, k)
  }

  ghost predicate Placed(volumeOf: map<Path, nat>, usage: map<Path, Usage>, entries: seq<MoveEntry>, k: nat) {
    exists start :: PlacedFrom(volumeOf, usage, entries, start, k)
  }

  lemma {:induction false} AfterAppend(volumeOf: map<Path, nat>, usage: map<Path, Usage>, entries: seq<MoveEntry>, e: MoveEntry)
    ensures After(volumeOf, usage, entries + [e]) == Landed(volumeOf, After(volumeOf, usage, entries), e)
  {
    assert (entries + [e])[..|entries|] == entries;
  }

  lemma {:induction false} AfterConcat(volumeOf: map<Path, nat>, usage: map<Path, Usage>, a: seq<MoveEntry>, b: seq<MoveEntry>)
    ensures After(volumeOf, usage, a + b) == After(volumeOf, After(volumeOf, usage, a), b)
    decreases |b|
  {
    if b == [] {
      assert a + b == a;
    } else {
      assert (a + b)[..|a + b| - 1] == a + b[..|b| - 1];
      AfterConcat(volumeOf, usage, a, b[..|b| - 1]);
    }
  }

  lemma {:induction false} AfterCoherent(volumeOf: map<Path, nat>, usage: map<Path, Usage>, entries: seq<MoveEntry>)
    requires Coherent(volumeOf, usage)
    ensures Coherent(volumeOf, After(volumeOf, usage, entries))
    decreases |entries|
  {
    if entries != [] {
      var n := |entries| - 1;
      AfterCoherent(volumeOf, usage, entries[..n]);
      AppliedCoherent(volumeOf, After(volumeOf, usage, entries[..n]), entries[n].fromPath, -entries[n].item.size);
    }
  }

  /** Counts a planned move in a usage table: the bytes leave the source's volume and arrive on the
      destination's. */
  method CountMove(volumes: Volumes, ghost volumeOf: map<Path, nat>, table: UsageTable, e: MoveEntry)
    requires IsGrouping(volumes, volumeOf)
    modifies table
    ensures table.usage == Landed(volumeOf, old(table.usage), e)
  {
    table.Apply(volumes, volumeOf, e.fromPath, -e.item.size);
    table.Apply(volumes, volumeOf, e.toPath, e.item.size);
  }
}
