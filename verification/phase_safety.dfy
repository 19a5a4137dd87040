/** What the disks can read at any moment of a run, between and during transfers. */
module PhaseSafety {
  import opened DiskUsage
  import opened PlannerModel
  import opened Ledger
  import opened Mover
  import opened Execution

  /** Where the entries of a phase and above begin. */
  lemma {:induction false} FindStart(volumeOf: map<Path, nat>, usage: map<Path, Usage>, entries: seq<MoveEntry>, phase: int, m: nat) returns (n: nat)
    requires Sound(volumeOf, usage, entries) && m <= |entries|
    ensures n <= m && (forall i :: 0 <= i < n ==> entries[i].phase < phase) && (forall i :: n <= i < m ==> phase <= entries[i].phase)
    decreases m
  {
    if m == 0 {
      n := 0;
    } else {
      n := FindStart(volumeOf, usage, entries, phase, m - 1);
      if n == m - 1 && entries[m - 1].phase < phase {
        n := m;
      } else if n < m - 1 {
        PhasesAscend(volumeOf, usage, entries, n, m - 1);
      }
    }
  }

  /** The last entry of the phase to have written anything to path's volume, if any has. */
  lemma {:induction false} LastWriter(volumeOf: map<Path, nat>, entries: seq<MoveEntry>, written: seq<int>, path: Path, n: nat, m: nat) returns (j: Option<nat>)
    requires |written| == |entries| && n <= m <= |entries|
    requires forall i :: 0 <= i < |entries| ==> 0 <= written[i]
    ensures j.None? ==> forall i :: n <= i < m && SameVolume(volumeOf, entries[i].toPath, path) ==> written[i] == 0
    ensures j.Some? ==>
              && n <= j.value < m && SameVolume(volumeOf, entries[j.value].toPath, path) && written[j.value] > 0
              && forall i :: j.value < i < m && SameVolume(volumeOf, entries[i].toPath, path) ==> written[i] == 0
    decreases m
  {
    if m == n {
      j := None;
    } else if SameVolume(volumeOf, entries[m - 1].toPath, path) && written[m - 1] > 0 {
      j := Some(m - 1);
    } else {
      j := LastWriter(volumeOf, entries, written, path, n, m - 1);
    }
  }

  lemma {:induction false} StartIsUnique(volumeOf: map<Path, nat>, usage: map<Path, Usage>, entries: seq<MoveEntry>, phase: int, n: nat, j: nat)
    requires Sound(volumeOf, usage, entries) && n <= j < |entries| && entries[j].phase == phase
    requires (forall i :: 0 <= i < n ==> entries[i].phase < phase) && (forall i :: n <= i < |entries| ==> phase <= entries[i].phase)
    ensures PlacedFrom(volumeOf, usage, entries, n, j)
  {
    var start := PhaseStart(volumeOf, usage, entries, j);
    assert entries[start].phase == phase && phase <= entries[n].phase;
  }

  /** With the phase's start reading behind it and nothing of the phase written, the volume is no
      fuller than at the start. */
  lemma {:induction false} NoFullerThanStart(volumeOf: map<Path, nat>, usage: map<Path, Usage>, entries: seq<MoveEntry>, path: Path, base: Usage,
                                             written: seq<int>, freed: seq<int>, n: nat)
    requires Coherent(volumeOf, usage) && Sound(volumeOf, usage, entries) && |written| == |freed| == |entries| && n <= |entries|
    requires AsPlanned(volumeOf, usage, entries, path, base) && UpTo(volumeOf, entries, written, freed, path, n, n)
    ensures var flow := Into(volumeOf, entries, written, path) - OutOf(volumeOf, entries, freed, path);
            flow <= NetIn(volumeOf, entries, path, n) <= base.free
  {
    FlowBound(volumeOf, entries, written, freed, path, n, n);
    assert entries[n..n] == [] && Sizes([]) == [];
    AfterExact(volumeOf, usage, entries, path, n);
  }

  /** With entry j the last of the phase to have written to the volume, it is within j's ceiling. */
  lemma {:induction false} WithinCeiling(volumeOf: map<Path, nat>, usage: map<Path, Usage>, entries: seq<MoveEntry>, path: Path, base: Usage,
                                         written: seq<int>, freed: seq<int>, n: nat, j: nat, u: Usage)
    requires Coherent(volumeOf, usage) && Sound(volumeOf, usage, entries) && |written| == |freed| == |entries|
    requires PlacedFrom(volumeOf, usage, entries, n, j) && SameVolume(volumeOf, entries[j].toPath, path) && entries[j].item.size > 0
    requires AsPlanned(volumeOf, usage, entries, path, base) && UpTo(volumeOf, entries, written, freed, path, n, j + 1)
    ensures Into(volumeOf, entries, written, path) - OutOf(volumeOf, entries, freed, path) <= base.free
    ensures Reads(volumeOf, entries, base, written, freed, path, u) ==> u.UsedPercent() <= entries[j].maxUsedPercent
  {
    FlowWithWriter(volumeOf, entries, path, written, freed, n, j);
    var r := TestedThere(volumeOf, usage, entries, path, n, j);
    TestedOn(volumeOf, usage, entries, n, j, path);
    if Reads(volumeOf, entries, base, written, freed, path, u) {
      WithinPercent(r, u, entries[j].item.size, entries[j].maxUsedPercent);
    }
  }

  lemma {:induction false} WithinPercent(r: Usage, u: Usage, size: int, ceiling: real)
    requires Fits(r, size, ceiling) && u.used <= r.used + size && r.free - size <= u.free
    ensures u.UsedPercent() <= ceiling
  {
    PercentMonotone(u.used, u.free, r.used + size, r.free - size);
  }

  lemma {:induction false} FlowWithWriter(volumeOf: map<Path, nat>, entries: seq<MoveEntry>, path: Path, written: seq<int>, freed: seq<int>, n: nat, j: nat)
    requires |written| == |freed| == |entries| && n <= j < |entries| && SameVolume(volumeOf, entries[j].toPath, path)
    requires UpTo(volumeOf, entries, written, freed, path, n, j + 1)
    ensures Into(volumeOf, entries, written, path) - OutOf(volumeOf, entries, freed, path)
         <= NetIn(volumeOf, entries, path, n) + Into(volumeOf, entries[n..j], Sizes(entries[n..j]), path) + entries[j].item.size
  {
    FlowBound(volumeOf, entries, written, freed, path, n, j + 1);
    assert entries[n..j + 1] == entries[n..j] + [entries[j]];
    OneMore(volumeOf, entries[n..j], entries[j], path);
  }

  /** The reading j was placed on, seen from any path of its volume. */
  lemma {:induction false} TestedThere(volumeOf: map<Path, nat>, usage: map<Path, Usage>, entries: seq<MoveEntry>, path: Path, n: nat, j: nat) returns (r: Usage)
    requires Coherent(volumeOf, usage) && path in usage
    requires PlacedFrom(volumeOf, usage, entries, n, j) && SameVolume(volumeOf, entries[j].toPath, path)
    ensures r == Reserved(volumeOf, After(volumeOf, usage, entries[..n]), entries[n..j])[path]
    ensures Fits(r, entries[j].item.size, entries[j].maxUsedPercent)
  {
    r := Reserved(volumeOf, After(volumeOf, usage, entries[..n]), entries[n..j])[path];
    ReservedCoherent(volumeOf, usage, entries[..n], entries[n..j]);
  }

  lemma {:induction false} OneMore(volumeOf: map<Path, nat>, entries: seq<MoveEntry>, e: MoveEntry, path: Path)
    requires SameVolume(volumeOf, e.toPath, path)
    ensures Into(volumeOf, entries + [e], Sizes(entries + [e]), path) == Into(volumeOf, entries, Sizes(entries), path) + e.item.size
  {
    assert (entries + [e])[..|entries|] == entries && Sizes(entries + [e])[..|entries|] == Sizes(entries);
  }

  lemma {:induction false} ReservedCoherent(volumeOf: map<Path, nat>, usage: map<Path, Usage>, lower: seq<MoveEntry>, same: seq<MoveEntry>)
    requires Coherent(volumeOf, usage)
    ensures Coherent(volumeOf, Reserved(volumeOf, After(volumeOf, usage, lower), same))
    decreases |same|
  {
    if same == [] {
      AfterCoherent(volumeOf, usage, lower);
    } else {
      ReservedCoherent(volumeOf, usage, lower, same[..|same| - 1]);
    }
  }

  // ----- what one phase brings in all

  /** Entries n to m are of the phase, and everything before them is of lower ones. */
  ghost predicate PhaseBlock(entries: seq<MoveEntry>, phase: int, n: nat, m: nat) {
    && n <= m <= |entries|
    && (forall i :: 0 <= i < n ==> entries[i].phase < phase)
    && (forall i :: n <= i < m ==> entries[i].phase == phase)
    && forall i :: m <= i < |entries| ==> phase <= entries[i].phase
  }

  /** What entries n to m bring to path's volume fits in what is free there once the ones before n landed. */
  ghost predicate ArrivalsFit(volumeOf: map<Path, nat>, usage: map<Path, Usage>, entries: seq<MoveEntry>, n: nat, m: nat, path: Path)
    requires path in usage && n <= m <= |entries|
  {
    Into(volumeOf, entries[n..m], Sizes(entries[n..m]), path) <= After(volumeOf, usage, entries[..n])[path].free
  }

  /** All the entries of one phase bound for a volume fit together in what it has free when the phase begins:
      nothing that leaves it during the phase is counted on. */
  lemma {:induction false} PhaseFitsFree(volumeOf: map<Path, nat>, usage: map<Path, Usage>, entries: seq<MoveEntry>, phase: int, n: nat, m: nat, path: Path)
    requires Coherent(volumeOf, usage) && Sound(volumeOf, usage, entries) && path in usage && PhaseBlock(entries, phase, n, m)
    ensures ArrivalsFit(volumeOf, usage, entries, n, m, path)
    decreases m
  {
    if n == m {
      NothingArrives(volumeOf, usage, entries, n, path);
    } else {
      ShorterBlock(entries, phase, n, m);
      PhaseFitsFree(volumeOf, usage, entries, phase, n, m - 1, path);
      StartIsUnique(volumeOf, usage, entries, phase, n, m - 1);
      OneMoreFits(volumeOf, usage, entries, n, m - 1, path);
    }
  }

  lemma {:induction false} ShorterBlock(entries: seq<MoveEntry>, phase: int, n: nat, m: nat)
    requires PhaseBlock(entries, phase, n, m) && n < m
    ensures PhaseBlock(entries, phase, n, m - 1)
  {
  }

  lemma {:induction false} NothingArrives(volumeOf: map<Path, nat>, usage: map<Path, Usage>, entries: seq<MoveEntry>, n: nat, path: Path)
    requires path in usage && n <= |entries|
    ensures ArrivalsFit(volumeOf, usage, entries, n, n, path)
  {
    assert entries[n..n] == [];
  }

  lemma {:induction false} OneMoreFits(volumeOf: map<Path, nat>, usage: map<Path, Usage>, entries: seq<MoveEntry>, n: nat, j: nat, path: Path)
    requires Coherent(volumeOf, usage) && Sound(volumeOf, usage, entries) && path in usage && PlacedFrom(volumeOf, usage, entries, n, j)
    requires ArrivalsFit(volumeOf, usage, entries, n, j, path)
    ensures ArrivalsFit(volumeOf, usage, entries, n, j + 1, path)
  {
    assert entries[n..j + 1] == entries[n..j] + [entries[j]];
    if SameVolume(volumeOf, entries[j].toPath, path) {
      OneMore(volumeOf, entries[n..j], entries[j], path);
      FitsWithThose(volumeOf, usage, entries, n, j, path);
    } else {
      NoneMore(volumeOf, entries[n..j], entries[j], path);
    }
  }

  /** Entry j fits with the earlier ones of its phase. */
  lemma {:induction false} FitsWithThose(volumeOf: map<Path, nat>, usage: map<Path, Usage>, entries: seq<MoveEntry>, n: nat, j: nat, path: Path)
    requires Coherent(volumeOf, usage) && Sound(volumeOf, usage, entries) && path in usage
    requires PlacedFrom(volumeOf, usage, entries, n, j) && SameVolume(volumeOf, entries[j].toPath, path)
    ensures entries[j].item.size == 0
            || Into(volumeOf, entries[n..j], Sizes(entries[n..j]), path) + entries[j].item.size <= After(volumeOf, usage, entries[..n])[path].free
  {
    var r := TestedThere(volumeOf, usage, entries, path, n, j);
    SameSizes(volumeOf, usage, entries, n, j);
    ReservedExact(volumeOf, After(volumeOf, usage, entries[..n]), entries[n..j], path);
  }

  lemma {:induction false} NoneMore(volumeOf: map<Path, nat>, entries: seq<MoveEntry>, e: MoveEntry, path: Path)
    requires !SameVolume(volumeOf, e.toPath, path)
    ensures Into(volumeOf, entries + [e], Sizes(entries + [e]), path) == Into(volumeOf, entries, Sizes(entries), path)
  {
    assert (entries + [e])[..|entries|] == entries && Sizes(entries + [e])[..|entries|] == Sizes(entries);
  }

  // ----- at every moment

  /** What a volume may read at its fullest while the phase that begins at entry n is under way: no
      fuller than when the phase started, or within the ceiling of an entry of the phase writing there. */
  ghost predicate SafeReading(volumeOf: map<Path, nat>, entries: seq<MoveEntry>, path: Path, base: Usage, phase: int, n: nat, u: Usage)
    requires n <= |entries|
  {
    var start := NetIn(volumeOf, entries, path, n);
    || (u.used <= base.used + start && base.free - start <= u.free)
    || exists j :: 0 <= j < |entries| && entries[j].phase == phase && SameVolume(volumeOf, entries[j].toPath, path)
                   && u.UsedPercent() <= entries[j].maxUsedPercent
  }

  lemma {:induction false} AmountsUpTo(volumeOf: map<Path, nat>, entries: seq<MoveEntry>, job: Job, s: State, path: Path,
                                       written: seq<int>, freed: seq<int>, n: nat, k: nat)
    requires Runs(job, entries, volumeOf) && Inv(job, s) && job.phases != [] && Physical(job, s, written, freed) && n <= k <= |entries|
    requires forall i :: 0 <= i < n ==> entries[i].phase < job.phases[s.at]
    requires forall i :: k <= i < |entries| && SameVolume(volumeOf, entries[i].toPath, path) ==> written[i] == 0
    ensures UpTo(volumeOf, entries, written, freed, path, n, k)
  {
    forall i: nat | i < |entries|
      ensures 0 <= written[i] <= entries[i].item.size && 0 <= freed[i]
      ensures i < n ==> freed[i] == entries[i].item.size
    {
      assert job.moves[i] == MoveOf(entries[i]);
      if i < n {
        LowerLanded(job, s, i);
      }
    }
  }

  lemma {:induction false} WrittenNow(job: Job, s: State, entries: seq<MoveEntry>, volumeOf: map<Path, nat>, written: seq<int>, freed: seq<int>, i: nat)
    requires Runs(job, entries, volumeOf) && Inv(job, s) && job.phases != [] && Physical(job, s, written, freed) && i < |entries|
    ensures 0 <= written[i] <= entries[i].item.size
    ensures entries[i].phase > job.phases[s.at] ==> written[i] == 0
  {
    assert job.moves[i] == MoveOf(entries[i]);
    assert EntryOk(job, s, i);
  }

  /** At every moment of every run of a sound plan - whatever has failed, and with any part of each
      transfer under way written and freed - no volume is asked for more than it has free, and none
      reads fuller than the larger of its level when the phase began and the ceilings of the phase's
      entries landing there. */
  lemma {:induction false} NeverOverfilled(volumeOf: map<Path, nat>, usage: map<Path, Usage>, entries: seq<MoveEntry>, job: Job, s: State, path: Path,
                                           base: Usage, written: seq<int>, freed: seq<int>, u: Usage) returns (n: nat)
    requires Coherent(volumeOf, usage) && Sound(volumeOf, usage, entries) && Runs(job, entries, volumeOf)
    requires Inv(job, s) && job.phases != [] && Physical(job, s, written, freed)
    requires AsPlanned(volumeOf, usage, entries, path, base)
    ensures n <= |entries| && (forall i :: 0 <= i < |entries| ==> (i < n <==> entries[i].phase < job.phases[s.at]))
    ensures Into(volumeOf, entries, written, path) - OutOf(volumeOf, entries, freed, path) <= base.free
    ensures Reads(volumeOf, entries, base, written, freed, path, u) ==> SafeReading(volumeOf, entries, path, base, job.phases[s.at], n, u)
  {
    n := FindStart(volumeOf, usage, entries, job.phases[s.at], |entries|);
    forall i: nat | i < |entries|
      ensures 0 <= written[i]
    {
      WrittenNow(job, s, entries, volumeOf, written, freed, i);
    }
    var j := LastWriter(volumeOf, entries, written, path, n, |entries|);
    if j.None? {
      AmountsUpTo(volumeOf, entries, job, s, path, written, freed, n, n);
      NoFullerThanStart(volumeOf, usage, entries, path, base, written, freed, n);
    } else {
      WrittenNow(job, s, entries, volumeOf, written, freed, j.value);
      StartIsUnique(volumeOf, usage, entries, job.phases[s.at], n, j.value);
      AmountsUpTo(volumeOf, entries, job, s, path, written, freed, n, j.value + 1);
      WithinCeiling(volumeOf, usage, entries, path, base, written, freed, n, j.value, u);
    }
  }
}
