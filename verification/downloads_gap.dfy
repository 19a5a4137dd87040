/** Inputs on which a downloads plan goes wrong: a move planned onto room an earlier one frees, with space held
    back or with the earlier move failing, and two moves that meet under nested seed paths. */
module DownloadsGap {
  import opened DiskUsage
  import opened PlannerModel
  import opened Mover
  import opened PlanRuns
  import opened ReservedRuns
  import opened DownloadsPlan
  import opened ReservationGap

  const SEED := Path("/seed")
  const SPARE := Path("/spare")
  const DRIVE := Path("/downloads")
  const OTHER := Path("/other")

  function Volumes(): map<Path, nat> {
    map[SEED := 1, DRIVE := 1]
  }

  function Places(): map<Path, Place> {
    map[SEED := ["seed"], SPARE := ["spare"], DRIVE := ["downloads"], OTHER := ["other"]]
  }

  function Seed(ceiling: real): SeedPath {
    SeedPath(Tier("seed", Cold, [SEED], [], ceiling, ceiling), SEED)
  }

  function Spare(): SeedPath {
    SeedPath(Tier("spare", Cold, [SPARE], [], 100.0, 100.0), SPARE)
  }

  /** A download on the seed path's own volume, and one elsewhere. */
  function Near(size: nat): Group {
    Group(["a"], size, DRIVE, ["downloads"], ["downloads", "a"])
  }

  function Far(): Group {
    Group(["b"], 1, OTHER, ["other"], ["other", "b"])
  }

  /** The seed path and the download drive on the disk as given, with all of the reservation held back, and a
      spare seed path with just room for the near download. */
  function GapUsages(disk: Usage, n: nat, size: nat): map<Path, Usage> {
    map[SEED := Reserve(disk, n), DRIVE := Reserve(disk, n), SPARE := Usage(size + 1, size, 1)]
  }

  function GapDownloads(disk: Usage, n: nat, ceiling: real, size: nat): DownloadsInput {
    DownloadsInput([Drives([DRIVE, OTHER]), Seed(ceiling).tier, Spare().tier], GapUsages(disk, n, size), Volumes(), Places(), {}, {}, {})
  }

  /** The near download to the spare path, the far one to the seed path. */
  function FirstMove(size: nat): DownloadMove {
    DownloadMove(Near(size), Spare(), ["spare"], ["spare", "a"])
  }

  function SecondMove(ceiling: real): DownloadMove {
    DownloadMove(Far(), Seed(ceiling), ["seed"], ["seed", "b"])
  }

  lemma {:induction false} GroupsRebase(size: nat, ceiling: real)
    ensures CanRebase(Places(), Near(size)) && CanRebase(Places(), Far())
    ensures FirstMove(size) == MoveFor(Places(), Near(size), Spare()) && SecondMove(ceiling) == MoveFor(Places(), Far(), Seed(ceiling))
  {
    assert ["downloads", "a"][1..] == ["a"] && ["other", "b"][1..] == ["b"];
    assert "a"[0] != "."[0] && "b"[0] != "."[0];
    assert ["downloads"] <= ["downloads", "a"] && ["other"] <= ["other", "b"];
  }

  /** Once the first has landed: what it held is free on the seed path's volume, and the spare path is full. */
  lemma {:induction false} FreedAgain(disk: Usage, n: nat, size: nat)
    requires n >= disk.free && size <= disk.used
    ensures var usage := After(Volumes(), GapUsages(disk, n, size), Moves([FirstMove(size)]));
            && SEED in usage && usage[SEED] == Usage(disk.total, size, disk.used + n - size)
            && SPARE in usage && usage[SPARE] == Usage(size + 1, 0, size + 1)
  {
    assert Moves([FirstMove(size)]) == [AsMove(FirstMove(size))];
    assert [AsMove(FirstMove(size))][..0] == [];
    assert After(Volumes(), GapUsages(disk, n, size), []) == GapUsages(disk, n, size);
  }

  lemma {:induction false} GapPlaced(disk: Usage, n: nat, ceiling: real, size: nat)
    ensures var input := GapDownloads(disk, n, ceiling, size);
            ValidTiers(input.tiers) && Coherent(input.volumeOf, input.usage) && WellPlaced(input, [Near(size), Far()])
  {
    GroupsRebase(size, ceiling);
    var input := GapDownloads(disk, n, ceiling, size);
    assert input.tiers == [Drives([DRIVE, OTHER]), Seed(ceiling).tier, Spare().tier];
  }

  /** The two are all the seed paths there are. */
  lemma {:induction false} GapSeeds(input: DownloadsInput, ceiling: real, s: SeedPath)
    requires input.tiers == [Drives([DRIVE, OTHER]), Seed(ceiling).tier, Spare().tier] && SEED in input.usage && SPARE in input.usage && input.unseen == {}
    ensures IsSeed(input, s) <==> s == Seed(ceiling) || s == Spare()
  {
  }

  lemma {:induction false} GapSeedsPlaced(disk: Usage, n: nat, ceiling: real, size: nat)
    ensures SeedsPlacedAt(GapDownloads(disk, n, ceiling, size), [Seed(ceiling), Spare()])
  {
    forall s
      ensures IsSeed(GapDownloads(disk, n, ceiling, size), s) <==> s in [Seed(ceiling), Spare()]
    {
      GapSeeds(GapDownloads(disk, n, ceiling, size), ceiling, s);
    }
  }

  /** At first only the spare path has room for the near download ... */
  lemma {:induction false} SpareFirst(disk: Usage, n: nat, ceiling: real, size: nat)
    requires n >= disk.free && 1 <= size
    ensures var input := GapDownloads(disk, n, ceiling, size); OnlyRoomAt(input, After(input.volumeOf, input.usage, Moves([])), Near(size), Spare())
  {
    var input := GapDownloads(disk, n, ceiling, size);
    assert Moves([]) == [];
    assert After(input.volumeOf, input.usage, Moves([])) == input.usage;
    PercentBound(size + 1, 0, 100.0);
    forall t | IsSeed(input, t) && t != Spare()
      ensures NoRoomAt(input.usage, Near(size), t)
    {
      GapSeeds(input, ceiling, t);
    }
  }

  /** ... and then only the seed path for the far one. */
  lemma {:induction false} SeedThen(disk: Usage, n: nat, ceiling: real, size: nat)
    requires n >= disk.free && 1 <= size <= disk.used && Fits(Usage(disk.total, size, disk.used + n - size), 1, ceiling)
    ensures var input := GapDownloads(disk, n, ceiling, size);
            OnlyRoomAt(input, After(input.volumeOf, input.usage, Moves([FirstMove(size)])), Far(), Seed(ceiling))
  {
    var input := GapDownloads(disk, n, ceiling, size);
    FreedAgain(disk, n, size);
    forall t | IsSeed(input, t) && t != Seed(ceiling)
      ensures NoRoomAt(After(input.volumeOf, input.usage, Moves([FirstMove(size)])), Far(), t)
    {
      GapSeeds(input, ceiling, t);
    }
  }

  /** So the one plan of the input has the far download follow onto what the near one frees. */
  lemma {:induction false} PlannedOnFreed(disk: Usage, n: nat, ceiling: real, size: nat, entries: seq<DownloadMove>)
    requires n >= disk.free && 1 <= size <= disk.used && Fits(Usage(disk.total, size, disk.used + n - size), 1, ceiling)
    ensures var input := GapDownloads(disk, n, ceiling, size);
            && ValidTiers(input.tiers) && Coherent(input.volumeOf, input.usage) && WellPlaced(input, [Near(size), Far()])
            && (Planned(input, [Near(size), Far()], entries) <==> entries == [FirstMove(size), SecondMove(ceiling)])
  {
    GapPlaced(disk, n, ceiling, size);
    GapSeedsPlaced(disk, n, ceiling, size);
    GroupsRebase(size, ceiling);
    SpareFirst(disk, n, ceiling, size);
    SeedThen(disk, n, ceiling, size);
    NotAllLeft(Near(size));
    NotAllLeft(Far());
    TwoPlannedExactly(GapDownloads(disk, n, ceiling, size), [Seed(ceiling), Spare()], Near(size), Far(), Spare(), Seed(ceiling), entries);
  }

  // ----- with space held back

  /** One byte more brings the seed path to the highest level the plan may reach. */
  lemma {:induction false} FitsOnFreed(disk: Usage, n: nat, ceiling: real)
    requires HasGap(disk, n, ceiling)
    ensures var size := LeavingSize(disk, n, ceiling); 1 <= size <= disk.used && Fits(Usage(disk.total, size, disk.used + n - size), 1, ceiling)
  {
    GapSizes(disk, n, ceiling);
    PercentBound(HighestPlanned(disk, n, ceiling), LeavingSize(disk, n, ceiling) - 1, ceiling);
  }

  /** Wherever room is not kept, there is an input whose every plan is that one. */
  lemma {:induction false} GapIsPlanned(disk: Usage, n: nat, ceiling: real, entries: seq<DownloadMove>)
    requires HasGap(disk, n, ceiling)
    ensures 1 <= LeavingSize(disk, n, ceiling)
    ensures var size := LeavingSize(disk, n, ceiling);
            var input := GapDownloads(disk, n, ceiling, size);
            && ValidTiers(input.tiers) && Coherent(input.volumeOf, input.usage) && WellPlaced(input, [Near(size), Far()])
            && (Planned(input, [Near(size), Far()], entries) <==> entries == [FirstMove(size), SecondMove(ceiling)])
  {
    GapSizes(disk, n, ceiling);
    FitsOnFreed(disk, n, ceiling);
    PlannedOnFreed(disk, n, ceiling, LeavingSize(disk, n, ceiling), entries);
  }

  /** And the second is refused, its predecessor landed, once no more than the reserved bytes are written. */
  lemma {:induction false} DownloadsGapIsRefused(disk: Usage, n: nat, ceiling: real) returns (bytes: nat, u: Usage)
    requires HasGap(disk, n, ceiling)
    ensures 0 <= LeavingSize(disk, n, ceiling) && bytes <= n
    ensures var moves := Moves([FirstMove(LeavingSize(disk, n, ceiling)), SecondMove(ceiling)]);
            && moves[1].toPath == SEED && moves[1].maxUsedPercent == ceiling && HasFirst({0}, 1)
            && ReadsWhile(Volumes(), moves, disk, bytes, {0}, 1, SEED, u) && !HasRoom(Some(u), EngineMove(moves[1]))
  {
    GapSizes(disk, n, ceiling);
    NoRoomThen(disk, n, ceiling, 0);
    var size := LeavingSize(disk, n, ceiling);
    bytes, u := WrittenBy(disk, n, size), GapReading(disk, n, size);
    var moves := Moves([FirstMove(size), SecondMove(ceiling)]);
    assert Flow(Volumes(), moves, {0}, 0, SEED) == 0;
    assert Flow(Volumes(), moves, {0}, 1, SEED) + size == 0;
  }

  // ----- when the earlier move fails

  /** Where a download drive shares a full seed path's volume, every plan of the input has a move onto the space
      an earlier one frees, and that move is refused when the earlier one fails. */
  lemma {:induction false} SharedVolumeMayRefuse(disk: Usage, ceiling: real, size: nat, entries: seq<DownloadMove>)
    requires disk.free == 0 && 1 <= size <= disk.used && Fits(Usage(disk.total, size, disk.used - size), 1, ceiling)
    ensures var input := GapDownloads(disk, 0, ceiling, size);
            && ValidTiers(input.tiers) && Coherent(input.volumeOf, input.usage) && input.usage[SEED] == disk && WellPlaced(input, [Near(size), Far()])
            && (Planned(input, [Near(size), Far()], entries) <==> entries == [FirstMove(size), SecondMove(ceiling)])
    ensures var moves := Moves([FirstMove(size), SecondMove(ceiling)]);
            moves[1].toPath == SEED && ReadsAfter(Volumes(), moves, disk, {}, 1, SEED, disk) && !HasRoom(Some(disk), EngineMove(moves[1]))
  {
    PlannedOnFreed(disk, 0, ceiling, size, entries);
    var moves := Moves([FirstMove(size), SecondMove(ceiling)]);
    assert Flow(Volumes(), moves, {}, 0, SEED) == 0;
    assert Flow(Volumes(), moves, {}, 1, SEED) == 0;
  }

  // ----- one seed path inside another

  const INNER := Path("/seed/tv")

  function Outer(): SeedPath {
    SeedPath(Tier("outer", Cold, [SEED], [], 100.0, 100.0), SEED)
  }

  function Inner(): SeedPath {
    SeedPath(Tier("inner", Cold, [INNER], [], 100.0, 100.0), INNER)
  }

  function NestedPlaces(): map<Path, Place> {
    map[SEED := ["seed"], INNER := ["seed", "tv"], DRIVE := ["downloads"], OTHER := ["other"]]
  }

  /** The outer path has just room for the first download, the inner one for the second. */
  function NestedInput(): DownloadsInput {
    DownloadsInput([Drives([DRIVE, OTHER]), Outer().tier, Inner().tier], map[SEED := Usage(3, 2, 1), INNER := Usage(2, 1, 1)], map[], NestedPlaces(), {}, {}, {})
  }

  /** A show in a folder of the inner path's name, and the same show outside it. */
  function InFolder(): Group {
    Group(["a"], 2, DRIVE, ["downloads", "tv"], ["downloads", "tv", "Show"])
  }

  function Outside(): Group {
    Group(["b"], 1, OTHER, ["other"], ["other", "Show"])
  }

  function ToOuter(): DownloadMove {
    DownloadMove(InFolder(), Outer(), ["seed", "tv"], ["seed", "tv", "Show"])
  }

  function ToInner(): DownloadMove {
    DownloadMove(Outside(), Inner(), ["seed", "tv"], ["seed", "tv", "Show"])
  }

  lemma {:induction false} NestedRebase()
    ensures CanRebase(NestedPlaces(), InFolder()) && CanRebase(NestedPlaces(), Outside())
    ensures ToOuter() == MoveFor(NestedPlaces(), InFolder(), Outer()) && ToInner() == MoveFor(NestedPlaces(), Outside(), Inner())
  {
    assert ["downloads", "tv", "Show"][2..] == ["Show"] && ["other", "Show"][1..] == ["Show"] && ["downloads", "tv"][1..] == ["tv"];
    assert "Show"[0] != "."[0];
    assert ["downloads", "tv"] <= ["downloads", "tv", "Show"] && ["other"] <= ["other", "Show"] && ["downloads"] <= ["downloads", "tv"];
    assert ["seed"] + ["tv"] + ["Show"] == ["seed", "tv", "Show"] && ["seed", "tv"] + [] + ["Show"] == ["seed", "tv", "Show"];
    assert ["seed"] + ["tv"] == ["seed", "tv"] && ["seed", "tv"] + [] == ["seed", "tv"];
  }

  lemma {:induction false} NestedSeeds(s: SeedPath)
    ensures IsSeed(NestedInput(), s) <==> s == Outer() || s == Inner()
  {
    NestedDistinct();
    assert NestedInput().tiers == [Drives([DRIVE, OTHER]), Outer().tier, Inner().tier];
  }

  lemma {:induction false} NestedPlaced()
    ensures var input := NestedInput();
            ValidTiers(input.tiers) && WellPlaced(input, [InFolder(), Outside()]) && SeedsPlacedAt(input, [Outer(), Inner()])
  {
    NestedRebase();
    NestedDistinct();
    forall s
      ensures IsSeed(NestedInput(), s) <==> s in [Outer(), Inner()]
    {
      NestedSeeds(s);
    }
    assert NestedInput().tiers == [Drives([DRIVE, OTHER]), Outer().tier, Inner().tier];
  }

  lemma {:induction false} NestedDistinct()
    ensures SEED != INNER && DRIVE != SEED && DRIVE != INNER && OTHER != SEED && OTHER != INNER
  {
    assert |"/seed"| != |"/seed/tv"| && |"/downloads"| != |"/seed"| && |"/downloads"| != |"/seed/tv"| && |"/other"| != |"/seed/tv"|;
    assert "/other"[1] != "/seed"[1];
  }

  lemma {:induction false} OuterFirst()
    ensures var input := NestedInput(); OnlyRoomAt(input, After(input.volumeOf, input.usage, Moves([])), InFolder(), Outer())
  {
    var input := NestedInput();
    assert Moves([]) == [];
    assert After(input.volumeOf, input.usage, Moves([])) == input.usage;
    NestedDistinct();
    PercentBound(3, 0, 100.0);
    forall t | IsSeed(input, t) && t != Outer()
      ensures NoRoomAt(input.usage, InFolder(), t)
    {
      NestedSeeds(t);
    }
    NestedSeeds(Outer());
  }

  lemma {:induction false} NestedAfter()
    ensures var input := NestedInput();
            After(input.volumeOf, input.usage, Moves([ToOuter()])) == map[SEED := Usage(3, 0, 3), INNER := Usage(2, 1, 1)]
  {
    var input := NestedInput();
    assert Moves([ToOuter()]) == [AsMove(ToOuter())];
    assert [AsMove(ToOuter())][..0] == [];
    assert After(input.volumeOf, input.usage, []) == input.usage;
    NestedDistinct();
  }

  lemma {:induction false} InnerThen()
    ensures var input := NestedInput(); OnlyRoomAt(input, After(input.volumeOf, input.usage, Moves([ToOuter()])), Outside(), Inner())
  {
    var input := NestedInput();
    NestedAfter();
    NestedDistinct();
    PercentBound(2, 0, 100.0);
    forall t | IsSeed(input, t) && t != Inner()
      ensures NoRoomAt(After(input.volumeOf, input.usage, Moves([ToOuter()])), Outside(), t)
    {
      NestedSeeds(t);
    }
    NestedSeeds(Inner());
  }

  /** The one plan of that input sends both shows to one place by way of two seed paths. */
  lemma {:induction false} NestedSeedsCollide(entries: seq<DownloadMove>)
    ensures var input := NestedInput();
            && ValidTiers(input.tiers) && WellPlaced(input, [InFolder(), Outside()])
            && (Planned(input, [InFolder(), Outside()], entries) <==> entries == [ToOuter(), ToInner()])
    ensures ToOuter().seed.path != ToInner().seed.path && ToOuter().newContent == ToInner().newContent
  {
    NestedDistinct();
    NestedPlaced();
    NestedRebase();
    OuterFirst();
    InnerThen();
    NotAllLeft(InFolder());
    NotAllLeft(Outside());
    TwoPlannedExactly(NestedInput(), [Outer(), Inner()], InFolder(), Outside(), Outer(), Inner(), entries);
  }
}
