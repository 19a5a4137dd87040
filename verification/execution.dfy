/** Planner and mover together: a plan run on the disks it was made for is never refused. */
module Execution {
  import opened DiskUsage
  import opened PlannerModel
  import opened Ledger
  import opened Mover
  import opened MoverProofs
  import opened MoverRuns

  /** A planned entry as the engine sees it. */
  function MoveOf(e: MoveEntry): Move {
    Move(e.item.size, e.toPath, e.phase, e.maxUsedPercent)
  }

  /** The run of a library plan: one queue per destination volume. */
  ghost predicate Runs(job: Job, entries: seq<MoveEntry>, volumeOf: map<Path, nat>) {
    && ValidJob(job) && |job.moves| == |entries|
    && (forall i :: 0 <= i < |entries| ==> job.moves[i] == MoveOf(entries[i]))
    && forall i :: 0 <= i < |entries| ==> job.keys[i] == KeyOf(entries[i].toPath, volumeOf)
  }

  /** The planner and the engine group paths alike. */
  lemma {:induction false} SameGrouping(volumeOf: map<Path, nat>, p: Path, q: Path)
    ensures KeyOf(p, volumeOf) == KeyOf(q, volumeOf) <==> SameVolume(volumeOf, p, q)
  {
  }

  /** The bytes each move has written at its destination and freed at its source by now: none before
      it is requested or when it was turned down, all once it has landed, anything in between else. */
  ghost predicate Physical(job: Job, s: State, written: seq<int>, freed: seq<int>) {
    && |written| == |freed| == |job.moves|
    && forall i: nat :: i < |job.moves| ==> Transferred(s, i, job.moves[i].size, written[i]) && Transferred(s, i, job.moves[i].size, freed[i])
  }

  ghost predicate Transferred(s: State, i: nat, size: int, amount: int) {
    && 0 <= amount <= size
    && (i !in s.requests || i in s.rejected ==> amount == 0)
    && (i in s.landed ==> amount == size)
  }

  /** What path's volume reads, when it would read base without the run. */
  ghost predicate Reads(volumeOf: map<Path, nat>, entries: seq<MoveEntry>, base: Usage, written: seq<int>, freed: seq<int>, path: Path, u: Usage)
    requires |written| == |freed| == |entries|
  {
    var flow := Into(volumeOf, entries, written, path) - OutOf(volumeOf, entries, freed, path);
    u.used == base.used + flow && u.free == base.free - flow
  }

  /** base is no fuller than the plan assumed, and what the plan takes off the volume is there. */
  ghost predicate AsPlanned(volumeOf: map<Path, nat>, usage: map<Path, Usage>, entries: seq<MoveEntry>, path: Path, base: Usage) {
    && path in usage && base.NoFullerThan(usage[path])
    && OutOf(volumeOf, entries, Sizes(entries), path) <= base.used
  }

  // ----- at most the room the plan held

  /** Amounts that respect the order of a sound plan up to entry k: lower phases are through, and of
      what goes to path's volume nothing at or after k has been written. */
  ghost predicate UpTo(volumeOf: map<Path, nat>, entries: seq<MoveEntry>, written: seq<int>, freed: seq<int>, path: Path, start: nat, k: nat)
    requires |written| == |freed| == |entries| && start <= k <= |entries|
  {
    && (forall i :: 0 <= i < |entries| ==> 0 <= written[i] <= entries[i].item.size && 0 <= freed[i])
    && (forall i :: 0 <= i < start ==> freed[i] == entries[i].item.size)
    && forall i :: k <= i < |entries| && SameVolume(volumeOf, entries[i].toPath, path) ==> written[i] == 0
  }

  /** What has been written is at most what the first k entries weigh ... */
  lemma {:induction false} WrittenBound(volumeOf: map<Path, nat>, entries: seq<MoveEntry>, written: seq<int>, path: Path, k: nat)
    requires |written| == |entries| && k <= |entries|
    requires forall i :: 0 <= i < |entries| ==> written[i] <= entries[i].item.size
    requires forall i :: k <= i < |entries| && SameVolume(volumeOf, entries[i].toPath, path) ==> written[i] == 0
    ensures Into(volumeOf, entries, written, path) <= Into(volumeOf, entries[..k], Sizes(entries[..k]), path)
  {
    IntoPrefix(volumeOf, entries, written, k, path);
    IntoMonotone(volumeOf, entries[..k], written[..k], Sizes(entries[..k]), path);
  }

  /** ... and what has been freed, at least what the lower phases weigh. */
  lemma {:induction false} FreedBound(volumeOf: map<Path, nat>, entries: seq<MoveEntry>, freed: seq<int>, path: Path, start: nat)
    requires |freed| == |entries| && start <= |entries|
    requires forall i :: 0 <= i < |entries| ==> 0 <= freed[i]
    requires forall i :: 0 <= i < start ==> freed[i] == entries[i].item.size
    ensures OutOf(volumeOf, entries[..start], Sizes(entries)[..start], path) <= OutOf(volumeOf, entries, freed, path)
  {
    OutOfPrefix(volumeOf, entries, freed, start, path);
    assert freed[..start] == Sizes(entries)[..start];
  }

  lemma {:induction false} SplitSizes(volumeOf: map<Path, nat>, entries: seq<MoveEntry>, path: Path, start: nat, k: nat)
    requires start <= k <= |entries|
    ensures Into(volumeOf, entries[..k], Sizes(entries[..k]), path)
         == Into(volumeOf, entries[..start], Sizes(entries)[..start], path) + Into(volumeOf, entries[start..k], Sizes(entries[start..k]), path)
  {
    assert entries[..start] + entries[start..k] == entries[..k];
    assert Sizes(entries)[..start] == Sizes(entries[..start]);
    IntoConcat(volumeOf, entries[..start], entries[start..k], path);
  }

  lemma {:induction false} FlowBound(volumeOf: map<Path, nat>, entries: seq<MoveEntry>, written: seq<int>, freed: seq<int>, path: Path, start: nat, k: nat)
    requires |written| == |freed| == |entries| && start <= k <= |entries|
    requires UpTo(volumeOf, entries, written, freed, path, start, k)
    ensures Into(volumeOf, entries, written, path) - OutOf(volumeOf, entries, freed, path)
         <= NetIn(volumeOf, entries, path, start) + Into(volumeOf, entries[start..k], Sizes(entries[start..k]), path)
  {
    WrittenBound(volumeOf, entries, written, path, k);
    FreedBound(volumeOf, entries, freed, path, start);
    SplitSizes(volumeOf, entries, path, start, k);
  }

  /** The state a placement was tested on, in plain numbers. */
  lemma {:induction false} TestedOn(volumeOf: map<Path, nat>, usage: map<Path, Usage>, entries: seq<MoveEntry>, start: nat, k: nat, path: Path)
    requires Coherent(volumeOf, usage) && Sound(volumeOf, usage, entries) && path in usage && start <= k <= |entries|
    requires OutOf(volumeOf, entries, Sizes(entries), path) <= usage[path].used
    ensures var r := Reserved(volumeOf, After(volumeOf, usage, entries[..start]), entries[start..k])[path];
            var flow := NetIn(volumeOf, entries, path, start) + Into(volumeOf, entries[start..k], Sizes(entries[start..k]), path);
            r.used == usage[path].used + flow && (r.free > 0 ==> r.free == usage[path].free - flow)
  {
    AfterExact(volumeOf, usage, entries, path, start);
    SameSizes(volumeOf, usage, entries, start, k);
    ReservedExact(volumeOf, After(volumeOf, usage, entries[..start]), entries[start..k], path);
  }

  lemma {:induction false} BelowTested(volumeOf: map<Path, nat>, usage: map<Path, Usage>, entries: seq<MoveEntry>, start: nat, k: nat, path: Path, base: Usage,
                                       written: seq<int>, freed: seq<int>, u: Usage)
    requires Coherent(volumeOf, usage) && Sound(volumeOf, usage, entries) && |written| == |freed| == |entries| && start <= k <= |entries|
    requires AsPlanned(volumeOf, usage, entries, path, base)
    requires UpTo(volumeOf, entries, written, freed, path, start, k)
    requires Reads(volumeOf, entries, base, written, freed, path, u)
    ensures var r := Reserved(volumeOf, After(volumeOf, usage, entries[..start]), entries[start..k])[path];
            u.used <= r.used && (r.free > 0 ==> r.free <= u.free)
  {
    TestedOn(volumeOf, usage, entries, start, k, path);
    FlowBound(volumeOf, entries, written, freed, path, start, k);
  }

  lemma {:induction false} RoomBelow(r: Usage, u: Usage, e: MoveEntry)
    requires Fits(r, e.item.size, e.maxUsedPercent)
    requires u.used <= r.used && (r.free > 0 ==> r.free <= u.free)
    ensures HasRoom(Some(u), MoveOf(e))
  {
    if e.item.size > 0 {
      PercentMonotone(u.used + e.item.size, u.free - e.item.size, r.used + e.item.size, r.free - e.item.size);
    }
  }

  /** Whatever has been written and freed, an entry still fits where the plan put it. */
  lemma {:induction false} StillFits(volumeOf: map<Path, nat>, usage: map<Path, Usage>, entries: seq<MoveEntry>, start: nat, k: nat, base: Usage,
                                     written: seq<int>, freed: seq<int>, u: Usage)
    requires Coherent(volumeOf, usage) && Sound(volumeOf, usage, entries) && |written| == |freed| == |entries|
    requires PlacedFrom(volumeOf, usage, entries, start, k)
    requires AsPlanned(volumeOf, usage, entries, entries[k].toPath, base)
    requires UpTo(volumeOf, entries, written, freed, entries[k].toPath, start, k)
    requires Reads(volumeOf, entries, base, written, freed, entries[k].toPath, u)
    ensures HasRoom(Some(u), MoveOf(entries[k]))
  {
    BelowTested(volumeOf, usage, entries, start, k, entries[k].toPath, base, written, freed, u);
    var r := Reserved(volumeOf, After(volumeOf, usage, entries[..start]), entries[start..k])[entries[k].toPath];
    RoomBelow(r, u, entries[k]);
  }

  // ----- the engine reaches an entry only when the plan says it fits

  lemma {:induction false} PhaseStart(volumeOf: map<Path, nat>, usage: map<Path, Usage>, entries: seq<MoveEntry>, k: nat) returns (start: nat)
    requires Sound(volumeOf, usage, entries) && k < |entries|
    ensures PlacedFrom(volumeOf, usage, entries, start, k)
  {
    assert Placed(volumeOf, usage, entries, k);
    start :| PlacedFrom(volumeOf, usage, entries, start, k);
  }

  lemma {:induction false} PhasesAscend(volumeOf: map<Path, nat>, usage: map<Path, Usage>, entries: seq<MoveEntry>, i: nat, j: nat)
    requires Sound(volumeOf, usage, entries) && i <= j < |entries|
    ensures entries[i].phase <= entries[j].phase
  {
    assert Placed(volumeOf, usage, entries, j);
  }

  /** At its turn, nothing bound for its volume at or after it in the plan has been requested. */
  lemma {:induction false} NothingLaterRequested(job: Job, s: State, k: VolumeKey, i: nat)
    requires Inv(job, s) && !s.done && job.phases != [] && Busy(s, k)
    requires s.workers[k].stage == Verifying || s.workers[k].stage == Checking || s.workers[k].stage == Requesting
    requires Head(s, k) <= i < |job.moves| && job.keys[i] == k && job.moves[i].phase >= job.phases[s.at]
    ensures i !in s.requests
  {
    assert EntryOk(job, s, i);
    assert WorkerOk(job, s, k);
    assert s.workers[k].todo[0] in s.workers[k].todo;
  }

  lemma {:induction false} HeadPhase(job: Job, s: State, k: VolumeKey)
    requires Inv(job, s) && job.phases != [] && Busy(s, k)
    ensures Head(s, k) < |job.moves| && InQueue(job, job.phases[s.at], k, Head(s, k))
  {
    assert WorkerOk(job, s, k);
    assert s.workers[k].todo[0] in s.workers[k].todo;
  }

  lemma {:induction false} LowerLanded(job: Job, s: State, i: nat)
    requires Inv(job, s) && job.phases != [] && i < |job.moves| && job.moves[i].phase < job.phases[s.at]
    ensures i in s.landed && i in s.requests && i !in s.rejected
  {
    assert EntryOk(job, s, i);
  }

  lemma {:induction false} AtItsTurn(volumeOf: map<Path, nat>, usage: map<Path, Usage>, entries: seq<MoveEntry>, job: Job, s: State, k: VolumeKey,
                                     written: seq<int>, freed: seq<int>, start: nat)
    requires Runs(job, entries, volumeOf) && Sound(volumeOf, usage, entries) && Inv(job, s) && !s.done && job.phases != []
    requires Busy(s, k) && s.workers[k].stage == Verifying && Physical(job, s, written, freed)
    requires Head(s, k) < |entries| && PlacedFrom(volumeOf, usage, entries, start, Head(s, k))
    ensures UpTo(volumeOf, entries, written, freed, entries[Head(s, k)].toPath, start, Head(s, k))
  {
    var h := Head(s, k);
    HeadPhase(job, s, k);
    forall i: nat | i < start
      ensures freed[i] == entries[i].item.size
    {
      assert job.moves[i] == MoveOf(entries[i]) && job.moves[h] == MoveOf(entries[h]);
      LowerLanded(job, s, i);
    }
    forall i: nat | h <= i < |entries| && SameVolume(volumeOf, entries[i].toPath, entries[h].toPath)
      ensures written[i] == 0
    {
      SameGrouping(volumeOf, entries[i].toPath, entries[h].toPath);
      PhasesAscend(volumeOf, usage, entries, h, i);
      assert job.moves[i] == MoveOf(entries[i]) && job.moves[h] == MoveOf(entries[h]);
      NothingLaterRequested(job, s, k, i);
    }
    forall i: nat | i < |entries|
      ensures 0 <= written[i] <= entries[i].item.size && 0 <= freed[i]
    {
      assert job.moves[i] == MoveOf(entries[i]);
    }
  }

  /** In every state a run of a sound plan can be in, whatever failed and however far the transfers
      under way have got, an entry whose turn comes finds room: verifyRoom does not refuse it. */
  lemma {:induction false} NeverRefused(volumeOf: map<Path, nat>, usage: map<Path, Usage>, entries: seq<MoveEntry>, job: Job, s: State, k: VolumeKey,
                                        base: Usage, written: seq<int>, freed: seq<int>, u: Usage)
    requires Coherent(volumeOf, usage) && Sound(volumeOf, usage, entries) && Runs(job, entries, volumeOf)
    requires Inv(job, s) && !s.done && job.phases != [] && Busy(s, k) && s.workers[k].stage == Verifying
    requires Head(s, k) < |entries| && AsPlanned(volumeOf, usage, entries, entries[Head(s, k)].toPath, base)
    requires Physical(job, s, written, freed)
    requires Reads(volumeOf, entries, base, written, freed, entries[Head(s, k)].toPath, u)
    ensures HasRoom(Some(u), job.moves[Head(s, k)])
  {
    var h := Head(s, k);
    var start := PhaseStart(volumeOf, usage, entries, h);
    AtItsTurn(volumeOf, usage, entries, job, s, k, written, freed, start);
    StillFits(volumeOf, usage, entries, start, h, base, written, freed, u);
    assert job.moves[h] == MoveOf(entries[h]);
  }
}
