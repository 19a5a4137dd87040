/** The bytes a plan moves, volume by volume, and what its soundness means for the disks. */
module Ledger {
  import opened DiskUsage
  import opened PlannerModel

  /** How many of the given bytes - one amount per entry - go to path's volume. */
  ghost function Into(volumeOf: map<Path, nat>, entries: seq<MoveEntry>, amounts: seq<int>, path: Path): int
    requires |amounts| == |entries|
  {
    if entries == [] then 0
    else
      var n := |entries| - 1;
      Into(volumeOf, entries[..n], amounts[..n], path) + if SameVolume(volumeOf, entries[n].toPath, path) then amounts[n] else 0
  }

  /** How many of them leave it. */
  ghost function OutOf(volumeOf: map<Path, nat>, entries: seq<MoveEntry>, amounts: seq<int>, path: Path): int
    requires |amounts| == |entries|
  {
    if entries == [] then 0
    else
      var n := |entries| - 1;
      OutOf(volumeOf, entries[..n], amounts[..n], path) + if SameVolume(volumeOf, entries[n].fromPath, path) then amounts[n] else 0
  }

  ghost function Sizes(entries: seq<MoveEntry>): seq<int> {
    seq(|entries|, i requires 0 <= i < |entries| => entries[i].item.size)
  }

  lemma {:induction false} IntoMonotone(volumeOf: map<Path, nat>, entries: seq<MoveEntry>, a: seq<int>, b: seq<int>, path: Path)
    requires |a| == |b| == |entries|
    requires forall i :: 0 <= i < |entries| && SameVolume(volumeOf, entries[i].toPath, path) ==> a[i] <= b[i]
    ensures Into(volumeOf, entries, a, path) <= Into(volumeOf, entries, b, path)
    decreases |entries|
  {
    if entries != [] {
      var n := |entries| - 1;
      IntoMonotone(volumeOf, entries[..n], a[..n], b[..n], path);
    }
  }

  lemma {:induction false} OutOfMonotone(volumeOf: map<Path, nat>, entries: seq<MoveEntry>, a: seq<int>, b: seq<int>, path: Path)
    requires |a| == |b| == |entries|
    requires forall i :: 0 <= i < |entries| && SameVolume(volumeOf, entries[i].fromPath, path) ==> a[i] <= b[i]
    ensures OutOf(volumeOf, entries, a, path) <= OutOf(volumeOf, entries, b, path)
    decreases |entries|
  {
    if entries != [] {
      var n := |entries| - 1;
      OutOfMonotone(volumeOf, entries[..n], a[..n], b[..n], path);
    }
  }

  /** Amounts that count only the first k entries total what those entries alone total. */
  lemma {:induction false} IntoPrefix(volumeOf: map<Path, nat>, entries: seq<MoveEntry>, amounts: seq<int>, k: nat, path: Path)
    requires |amounts| == |entries| && k <= |entries|
    requires forall i :: k <= i < |entries| && SameVolume(volumeOf, entries[i].toPath, path) ==> amounts[i] == 0
    ensures Into(volumeOf, entries, amounts, path) == Into(volumeOf, entries[..k], amounts[..k], path)
    decreases |entries|
  {
    if k < |entries| {
      var n := |entries| - 1;
      IntoPrefix(volumeOf, entries[..n], amounts[..n], k, path);
      assert entries[..n][..k] == entries[..k] && amounts[..n][..k] == amounts[..k];
    } else {
      assert entries[..k] == entries && amounts[..k] == amounts;
    }
  }

  lemma {:induction false} OutOfPrefix(volumeOf: map<Path, nat>, entries: seq<MoveEntry>, amounts: seq<int>, k: nat, path: Path)
    requires |amounts| == |entries| && k <= |entries|
    requires forall i :: k <= i < |entries| ==> 0 <= amounts[i]
    ensures OutOf(volumeOf, entries[..k], amounts[..k], path) <= OutOf(volumeOf, entries, amounts, path)
    decreases |entries|
  {
    if k < |entries| {
      var n := |entries| - 1;
      OutOfPrefix(volumeOf, entries[..n], amounts[..n], k, path);
      assert entries[..n][..k] == entries[..k] && amounts[..n][..k] == amounts[..k];
    } else {
      assert entries[..k] == entries && amounts[..k] == amounts;
    }
  }

  lemma {:induction false} IntoConcat(volumeOf: map<Path, nat>, a: seq<MoveEntry>, b: seq<MoveEntry>, path: Path)
    ensures Into(volumeOf, a + b, Sizes(a + b), path) == Into(volumeOf, a, Sizes(a), path) + Into(volumeOf, b, Sizes(b), path)
    decreases |b|
  {
    if b == [] {
      assert a + b == a;
    } else {
      var m := |b| - 1;
      assert (a + b)[..|a + b| - 1] == a + b[..m];
      assert Sizes(a + b)[..|a + b| - 1] == Sizes(a + b[..m]);
      assert Sizes(b)[..m] == Sizes(b[..m]);
      IntoConcat(volumeOf, a, b[..m], path);
    }
  }

  // ----- what soundness says of each entry

  /** A sound plan moves no negative sizes. */
  lemma {:induction false} SoundSizes(volumeOf: map<Path, nat>, usage: map<Path, Usage>, entries: seq<MoveEntry>, k: nat)
    requires Sound(volumeOf, usage, entries) && k < |entries|
    ensures 0 <= entries[k].item.size && entries[k].fromPath in usage && entries[k].toPath in usage
  {
    assert Placed(volumeOf, usage, entries, k);
  }

  /** Landing everything leaves no path fuller than only holding room for everything. */
  lemma {:induction false} ReservedCovers(volumeOf: map<Path, nat>, usage: map<Path, Usage>, entries: seq<MoveEntry>, path: Path)
    requires path in usage && forall i :: 0 <= i < |entries| ==> 0 <= entries[i].item.size
    ensures After(volumeOf, usage, entries)[path].NoFullerThan(Reserved(volumeOf, usage, entries)[path])
    decreases |entries|
  {
    if entries != [] {
      var n := |entries| - 1;
      var e := entries[n];
      ReservedCovers(volumeOf, usage, entries[..n], path);
      CoversStep(volumeOf, After(volumeOf, usage, entries[..n]), Reserved(volumeOf, usage, entries[..n]), e, path);
    }
  }

  lemma {:induction false} CoversStep(volumeOf: map<Path, nat>, landed: map<Path, Usage>, held: map<Path, Usage>, e: MoveEntry, path: Path)
    requires path in landed && path in held && landed[path].NoFullerThan(held[path]) && 0 <= e.item.size
    ensures Landed(volumeOf, landed, e)[path].NoFullerThan(Applied(volumeOf, held, e.toPath, e.item.size)[path])
  {
  }

  /** Room held is counted exactly, as long as any is left. */
  lemma {:induction false} ReservedExact(volumeOf: map<Path, nat>, usage: map<Path, Usage>, entries: seq<MoveEntry>, path: Path)
    requires path in usage && forall i :: 0 <= i < |entries| ==> 0 <= entries[i].item.size
    ensures var r := Reserved(volumeOf, usage, entries)[path];
            && r.used == usage[path].used + Into(volumeOf, entries, Sizes(entries), path)
            && (r.free > 0 ==> r.free == usage[path].free - Into(volumeOf, entries, Sizes(entries), path))
            && r.total == usage[path].total
    decreases |entries|
  {
    if entries != [] {
      var n := |entries| - 1;
      assert Sizes(entries)[..n] == Sizes(entries[..n]);
      ReservedExact(volumeOf, usage, entries[..n], path);
    }
  }

  /** One landing is counted exactly when its bytes were there and there is room for them. */
  lemma {:induction false} LandedExact(volumeOf: map<Path, nat>, usage: map<Path, Usage>, e: MoveEntry, path: Path)
    requires path in usage && 0 <= e.item.size
    requires SameVolume(volumeOf, e.fromPath, path) ==> e.item.size <= usage[path].used
    requires SameVolume(volumeOf, e.toPath, path) ==> e.item.size <= usage[path].free
    ensures var u := Landed(volumeOf, usage, e)[path];
            var flow := (if SameVolume(volumeOf, e.toPath, path) then e.item.size else 0) - (if SameVolume(volumeOf, e.fromPath, path) then e.item.size else 0);
            u == Usage(usage[path].total, usage[path].free - flow, usage[path].used + flow)
  {
  }

  /** The flow to and from path's volume by the first n entries. */
  ghost function NetIn(volumeOf: map<Path, nat>, entries: seq<MoveEntry>, path: Path, n: nat): int
    requires n <= |entries|
  {
    Into(volumeOf, entries[..n], Sizes(entries)[..n], path) - OutOf(volumeOf, entries[..n], Sizes(entries)[..n], path)
  }

  lemma {:induction false} NetInStep(volumeOf: map<Path, nat>, entries: seq<MoveEntry>, path: Path, n: nat)
    requires n < |entries|
    ensures NetIn(volumeOf, entries, path, n + 1) == NetIn(volumeOf, entries, path, n)
                                                   + (if SameVolume(volumeOf, entries[n].toPath, path) then entries[n].item.size else 0)
                                                   - (if SameVolume(volumeOf, entries[n].fromPath, path) then entries[n].item.size else 0)
    ensures OutOf(volumeOf, entries[..n + 1], Sizes(entries)[..n + 1], path)
         == OutOf(volumeOf, entries[..n], Sizes(entries)[..n], path) + (if SameVolume(volumeOf, entries[n].fromPath, path) then entries[n].item.size else 0)
  {
    assert entries[..n + 1][..n] == entries[..n] && Sizes(entries)[..n + 1][..n] == Sizes(entries)[..n];
  }

  /** After the first n entries path reads its first reading plus the flow, to the byte. */
  ghost predicate ReadsExactly(volumeOf: map<Path, nat>, usage: map<Path, Usage>, entries: seq<MoveEntry>, path: Path, n: nat)
    requires path in usage && n <= |entries|
  {
    var u, flow := After(volumeOf, usage, entries[..n])[path], NetIn(volumeOf, entries, path, n);
    u.used == usage[path].used + flow && u.free == usage[path].free - flow && u.total == usage[path].total
  }

  /** Nothing is ever floored along a sound plan: what each path reads is its first reading plus what
      arrived and less what left, provided what leaves was there to begin with. */
  lemma {:induction false} AfterExact(volumeOf: map<Path, nat>, usage: map<Path, Usage>, entries: seq<MoveEntry>, path: Path, n: nat)
    requires Coherent(volumeOf, usage) && Sound(volumeOf, usage, entries) && path in usage && n <= |entries|
    requires OutOf(volumeOf, entries, Sizes(entries), path) <= usage[path].used
    ensures ReadsExactly(volumeOf, usage, entries, path, n)
    decreases n
  {
    if n == 0 {
      assert entries[..0] == [];
    } else {
      AfterExact(volumeOf, usage, entries, path, n - 1);
      ExactNext(volumeOf, usage, entries, path, n - 1);
    }
  }

  lemma {:induction false} ExactNext(volumeOf: map<Path, nat>, usage: map<Path, Usage>, entries: seq<MoveEntry>, path: Path, n: nat)
    requires Coherent(volumeOf, usage) && Sound(volumeOf, usage, entries) && path in usage && n < |entries|
    requires OutOf(volumeOf, entries, Sizes(entries), path) <= usage[path].used
    requires ReadsExactly(volumeOf, usage, entries, path, n)
    ensures ReadsExactly(volumeOf, usage, entries, path, n + 1)
  {
    var e := entries[n];
    SoundSizes(volumeOf, usage, entries, n);
    NetInStep(volumeOf, entries, path, n);
    ThereToLeave(volumeOf, usage, entries, path, n);
    if SameVolume(volumeOf, e.toPath, path) {
      RoomToLand(volumeOf, usage, entries, n, path);
    }
    LandedExact(volumeOf, After(volumeOf, usage, entries[..n]), e, path);
    OneMoreLanded(volumeOf, usage, entries, n);
  }

  lemma {:induction false} OneMoreLanded(volumeOf: map<Path, nat>, usage: map<Path, Usage>, entries: seq<MoveEntry>, n: nat)
    requires n < |entries|
    ensures After(volumeOf, usage, entries[..n + 1]) == Landed(volumeOf, After(volumeOf, usage, entries[..n]), entries[n])
  {
    assert entries[..n + 1] == entries[..n] + [entries[n]];
    AfterAppend(volumeOf, usage, entries[..n], entries[n]);
  }

  /** When its turn comes, the bytes an entry takes off path's volume are there. */
  lemma {:induction false} ThereToLeave(volumeOf: map<Path, nat>, usage: map<Path, Usage>, entries: seq<MoveEntry>, path: Path, n: nat)
    requires Sound(volumeOf, usage, entries) && path in usage && n < |entries|
    requires OutOf(volumeOf, entries, Sizes(entries), path) <= usage[path].used
    ensures SameVolume(volumeOf, entries[n].fromPath, path) ==> entries[n].item.size <= usage[path].used + NetIn(volumeOf, entries, path, n)
  {
    NetInStep(volumeOf, entries, path, n);
    LeavesWhatWasThere(volumeOf, usage, entries, path, n + 1);
    LeavesWhatWasThere(volumeOf, usage, entries, path, n);
  }

  lemma {:induction false} LeavesWhatWasThere(volumeOf: map<Path, nat>, usage: map<Path, Usage>, entries: seq<MoveEntry>, path: Path, n: nat)
    requires Sound(volumeOf, usage, entries) && n <= |entries|
    ensures OutOf(volumeOf, entries[..n], Sizes(entries)[..n], path) <= OutOf(volumeOf, entries, Sizes(entries), path)
    ensures 0 <= Into(volumeOf, entries[..n], Sizes(entries)[..n], path)
  {
    forall k | 0 <= k < |entries|
      ensures 0 <= Sizes(entries)[k]
    {
      SoundSizes(volumeOf, usage, entries, k);
    }
    OutOfPrefix(volumeOf, entries, Sizes(entries), n, path);
    var zeros := seq(n, _ => 0);
    IntoMonotone(volumeOf, entries[..n], zeros, Sizes(entries)[..n], path);
    IntoPrefix(volumeOf, entries[..n], zeros, 0, path);
  }

  lemma {:induction false} RoomWhenPlaced(volumeOf: map<Path, nat>, usage: map<Path, Usage>, lower: seq<MoveEntry>, same: seq<MoveEntry>, e: MoveEntry)
    requires AdmittedAfter(volumeOf, usage, lower, same, e)
    requires forall i :: 0 <= i < |same| ==> 0 <= same[i].item.size
    ensures e.toPath in usage && 0 <= e.item.size <= After(volumeOf, usage, lower + same)[e.toPath].free
  {
    ReservedCovers(volumeOf, After(volumeOf, usage, lower), same, e.toPath);
    AfterConcat(volumeOf, usage, lower, same);
  }

  /** When an entry's turn comes and everything before it has landed, its whole volume has room. */
  lemma {:induction false} RoomToLand(volumeOf: map<Path, nat>, usage: map<Path, Usage>, entries: seq<MoveEntry>, k: nat, path: Path)
    requires Coherent(volumeOf, usage) && Sound(volumeOf, usage, entries) && k < |entries| && path in usage
    requires SameVolume(volumeOf, entries[k].toPath, path)
    ensures 0 <= entries[k].item.size <= After(volumeOf, usage, entries[..k])[path].free
  {
    assert Placed(volumeOf, usage, entries, k);
    var start: nat :| PlacedFrom(volumeOf, usage, entries, start, k);
    RoomFrom(volumeOf, usage, entries, start, k);
    AfterCoherent(volumeOf, usage, entries[..k]);
    assert After(volumeOf, usage, entries[..k])[entries[k].toPath] == After(volumeOf, usage, entries[..k])[path];
  }

  lemma {:induction false} RoomFrom(volumeOf: map<Path, nat>, usage: map<Path, Usage>, entries: seq<MoveEntry>, start: nat, k: nat)
    requires Sound(volumeOf, usage, entries) && PlacedFrom(volumeOf, usage, entries, start, k)
    ensures entries[k].toPath in usage && 0 <= entries[k].item.size <= After(volumeOf, usage, entries[..k])[entries[k].toPath].free
  {
    SameSizes(volumeOf, usage, entries, start, k);
    RoomWhenPlaced(volumeOf, usage, entries[..start], entries[start..k], entries[k]);
    assert entries[..start] + entries[start..k] == entries[..k];
  }

  lemma {:induction false} SameSizes(volumeOf: map<Path, nat>, usage: map<Path, Usage>, entries: seq<MoveEntry>, start: nat, k: nat)
    requires Sound(volumeOf, usage, entries) && start <= k <= |entries|
    ensures forall i :: 0 <= i < k - start ==> 0 <= entries[start..k][i].item.size
  {
    forall i | 0 <= i < k - start
      ensures 0 <= entries[start..k][i].item.size
    {
      SoundSizes(volumeOf, usage, entries, start + i);
    }
  }
}
