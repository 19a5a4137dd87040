/** Space held back for downloads still in progress (internal/engine/downloads.go). */
module Reservations {
  import opened DiskUsage
  import opened PlannerModel
  import opened Planner
  import opened Build
  import opened Mover
  import opened MoverRuns
  import opened Execution
  import opened PlanRuns
  import opened ReservedRuns

  /** A tier path's health, and its device where that is known. */
  datatype PathStatus = PathStatus(failed: bool, device: Option<nat>)

  /** A download as qBittorrent reports it, with the device its data is on (or going to) where Coldarr can
      tell, and the deepest tier path containing its save path. */
  datatype Progress = Progress(complete: bool, amountLeft: int, paused: bool, errored: bool, device: Option<nat>, tierPath: Option<Path>)

  predicate Counts(d: Progress) {
    !d.complete && d.amountLeft > 0 && !d.paused && !d.errored
  }

  /** The download will write to that path's disk. */
  predicate WritesTo(d: Progress, status: map<Path, PathStatus>, path: Path)
    requires path in status
  {
    if d.device.Some? then status[path].device == d.device
    else if d.tierPath.Some? && d.tierPath.value in status then
      if status[d.tierPath.value].device.Some? then status[path].device == status[d.tierPath.value].device else path == d.tierPath.value
    else false
  }

  /** The bytes downloads in progress will still write to path's disk. */
  function Owed(downloads: seq<Progress>, status: map<Path, PathStatus>, path: Path): nat
    requires path in status
  {
    if downloads == [] then 0
    else
      var d := downloads[|downloads| - 1];
      Owed(downloads[..|downloads| - 1], status, path) + if Counts(d) && WritesTo(d, status, path) then d.amountLeft else 0
  }

  function ReservedFrom(byDevice: map<nat, nat>, byPath: map<Path, nat>, status: map<Path, PathStatus>, path: Path): nat
    requires path in status
  {
    (if path in byPath then byPath[path] else 0) +
    (if status[path].device.Some? && status[path].device.value in byDevice then byDevice[status[path].device.value] else 0)
  }

  /** The bytes each path's disk still owes to downloads, for every healthy path that owes any. */
  method ReservationsFor(downloads: seq<Progress>, status: map<Path, PathStatus>) returns (reserved: map<Path, int>)
    ensures ReservedFor(downloads, status, reserved)
  {
    var byDevice: map<nat, nat>, byPath: map<Path, nat> := map[], map[];
    for i := 0 to |downloads|
      invariant forall p :: p in byPath ==> p in status && status[p].device.None?
      invariant forall p :: p in status ==> ReservedFrom(byDevice, byPath, status, p) == Owed(downloads[..i], status, p)
    {
      var d := downloads[i];
      assert downloads[..i + 1][..i] == downloads[..i];
      if !Counts(d) {
        continue;
      }
      if d.device.Some? {
        byDevice := AddTo(byDevice, d.device.value, d.amountLeft);
      } else if d.tierPath.Some? && d.tierPath.value in status {
        var st := status[d.tierPath.value];
        if st.device.Some? {
          byDevice := AddTo(byDevice, st.device.value, d.amountLeft);
        } else {
          byPath := AddTo(byPath, d.tierPath.value, d.amountLeft);
        }
      }
    }
    assert downloads[..|downloads|] == downloads;
    reserved := map p | p in status && !status[p].failed && ReservedFrom(byDevice, byPath, status, p) > 0 :: ReservedFrom(byDevice, byPath, status, p);
  }

  function AddTo<K>(m: map<K, nat>, k: K, n: nat): map<K, nat> {
    m[k := (if k in m then m[k] else 0) + n]
  }

  /** Paths on one device owe the same: a download counts against all of them alike. */
  lemma {:induction false} OwedTogether(downloads: seq<Progress>, status: map<Path, PathStatus>, p: Path, q: Path)
    requires p in status && q in status && status[p].device.Some? && status[p].device == status[q].device
    ensures Owed(downloads, status, p) == Owed(downloads, status, q)
    decreases |downloads|
  {
    if downloads != [] {
      OwedTogether(downloads[..|downloads| - 1], status, p, q);
    }
  }

  /** The bytes a download has left count unless it is complete, paused or errored, and on one disk only: the one
      its data is on, or else the one its tier path is on, or else that path itself. */
  lemma {:induction false} OwedOneMore(downloads: seq<Progress>, d: Progress, status: map<Path, PathStatus>, path: Path)
    requires path in status
    ensures Owed(downloads + [d], status, path) == Owed(downloads, status, path) +
            if d.complete || d.paused || d.errored || d.amountLeft <= 0 then 0
            else
              match (d.device, d.tierPath)
              case (Some(v), _) => if status[path].device == Some(v) then d.amountLeft else 0
              case (None, Some(q)) =>
                if q !in status then 0
                else if status[q].device.None? then if path == q then d.amountLeft else 0
                else if status[path].device == status[q].device then d.amountLeft else 0
              case (None, None) => 0
  {
    assert (downloads + [d])[..|downloads|] == downloads;
  }

  /** Two paths owe for one download only where they are on one device, or the same. */
  lemma {:induction false} OnOneDisk(d: Progress, status: map<Path, PathStatus>, p: Path, q: Path)
    requires p in status && q in status && WritesTo(d, status, p) && WritesTo(d, status, q)
    ensures p == q || (status[p].device.Some? && status[p].device == status[q].device)
  {
  }

  /** Every download's remaining bytes are in what its disk owes. */
  lemma {:induction false} OwedCovers(downloads: seq<Progress>, status: map<Path, PathStatus>, path: Path, i: nat)
    requires path in status && i < |downloads| && Counts(downloads[i]) && WritesTo(downloads[i], status, path)
    ensures Owed(downloads, status, path) >= downloads[i].amountLeft
    decreases |downloads|
  {
    if i < |downloads| - 1 {
      OwedCovers(downloads[..|downloads| - 1], status, path, i);
    }
  }

  /** The devices the planner goes by are those the status knows. */
  ghost predicate SameDevices(volumeOf: map<Path, nat>, status: map<Path, PathStatus>) {
    && (forall p :: p in volumeOf ==> p in status && status[p].device == Some(volumeOf[p]))
    && forall p :: p in status && status[p].device.Some? ==> p in volumeOf
  }

  /** Holding space back keeps the usage coherent: paths of one volume still read the same. */
  lemma {:induction false} StillCoherent(downloads: seq<Progress>, status: map<Path, PathStatus>, volumeOf: map<Path, nat>, usage: map<Path, Usage>, reserved: map<Path, int>)
    requires SameDevices(volumeOf, status) && Coherent(volumeOf, usage)
    requires forall p :: p in usage ==> p in status && !status[p].failed
    requires ReservedFor(downloads, status, reserved)
    ensures Coherent(volumeOf, ApplyReservations(usage, reserved))
  {
    forall p, q | p in usage && q in usage && SameVolume(volumeOf, p, q)
      ensures ApplyReservations(usage, reserved)[p] == ApplyReservations(usage, reserved)[q]
    {
      if p != q {
        OwedTogether(downloads, status, p, q);
      }
      assert usage[p] == usage[q];
    }
  }

  // ----- what reservations are for

  /** The map ReservationsFor returns. */
  ghost predicate ReservedFor(downloads: seq<Progress>, status: map<Path, PathStatus>, reserved: map<Path, int>) {
    && (forall p :: p in reserved <==> p in status && !status[p].failed && Owed(downloads, status, p) > 0)
    && forall p :: p in reserved ==> reserved[p] == Owed(downloads, status, p)
  }

  /** The bytes downloads have written to path's disk since, each having written so much. */
  ghost function WrittenOn(downloads: seq<Progress>, status: map<Path, PathStatus>, progress: seq<nat>, path: Path): nat
    requires path in status && |progress| == |downloads|
  {
    if downloads == [] then 0
    else
      var n := |downloads| - 1;
      WrittenOn(downloads[..n], status, progress[..n], path) + if Counts(downloads[n]) && WritesTo(downloads[n], status, path) then progress[n] else 0
  }

  /** No download writes more than it had left. */
  ghost predicate WithinLeft(downloads: seq<Progress>, progress: seq<nat>) {
    |progress| == |downloads| && forall i :: 0 <= i < |downloads| && Counts(downloads[i]) ==> progress[i] <= downloads[i].amountLeft
  }

  lemma {:induction false} WrittenWithinOwed(downloads: seq<Progress>, status: map<Path, PathStatus>, progress: seq<nat>, path: Path)
    requires path in status && WithinLeft(downloads, progress)
    ensures WrittenOn(downloads, status, progress, path) <= Owed(downloads, status, path)
    decreases |downloads|
  {
    if downloads != [] {
      var n := |downloads| - 1;
      WrittenWithinOwed(downloads[..n], status, progress[..n], path);
    }
  }

  /** From the downloads in progress to a run: a plan built with what they still need held back is never
      refused by the room check, however far each of them has got by then, on a disk where the check made
      before planning says that room is kept. */
  lemma {:induction false} DownloadsKeepRoom(input: Input, plan: Plan, disks: map<Path, Usage>, downloads: seq<Progress>, status: map<Path, PathStatus>,
                                             reserved: map<Path, int>, progress: seq<nat>,
                                             job: Job, events: seq<Event>, k: VolumeKey, written: seq<int>, freed: seq<int>, u: Usage)
    requires ValidTiers(input.layout.tiers) && Coherent(input.layout.volumeOf, disks) && SameDevices(input.layout.volumeOf, status)
    requires forall p :: p in disks ==> p in status && !status[p].failed
    requires ReservedFor(downloads, status, reserved) && input.usage == ApplyReservations(disks, reserved) && Built(input, plan)
    requires WithinLeft(downloads, progress)
    requires Runs(job, plan.entries, input.layout.volumeOf) && Reached(job, Start(job), events).Some?
    requires var s := Reached(job, Start(job), events).value;
             && Enabled(job, s, Room(k, Some(u))) && Head(s, k) < |plan.entries| && Physical(job, s, written, freed)
             && var e := plan.entries[Head(s, k)];
                && e.toPath in disks && RoomKept(disks[e.toPath], Owed(downloads, status, e.toPath), e.maxUsedPercent)
                && WeightOn(input.layout.volumeOf, Mapped(FillItem, input.items), e.toPath) <= disks[e.toPath].used
                && ReadsWith(input.layout.volumeOf, plan.entries, disks[e.toPath], WrittenOn(downloads, status, progress, e.toPath), written, freed, e.toPath, u)
    ensures HasRoom(Some(u), job.moves[Head(Reached(job, Start(job), events).value, k)])
  {
    var p := plan.entries[Head(Reached(job, Start(job), events).value, k)].toPath;
    StillCoherent(downloads, status, input.layout.volumeOf, disks, reserved);
    WrittenWithinOwed(downloads, status, progress, p);
    HeldIsOwed(downloads, status, reserved, p);
    BuiltPlanNeverRefused(input, plan, disks, reserved, WrittenOn(downloads, status, progress, p), job, events, k, written, freed, u);
  }

  lemma {:induction false} HeldIsOwed(downloads: seq<Progress>, status: map<Path, PathStatus>, reserved: map<Path, int>, p: Path)
    requires ReservedFor(downloads, status, reserved) && p in status && !status[p].failed
    ensures HeldOn(reserved, p) == Owed(downloads, status, p)
  {
  }
}
