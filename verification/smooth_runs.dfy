/** A run nothing goes wrong with: on the disks it was planned for, every move lands. */
module SmoothRuns {
  import opened DiskUsage
  import opened PlannerModel
  import opened Ledger
  import opened Mover
  import opened MoverProofs
  import opened MoverRuns
  import opened Execution

  /** A reading the destination can give: some base no fuller than planned, and some part of each
      transfer under way. */
  ghost predicate TrueReading(volumeOf: map<Path, nat>, usage: map<Path, Usage>, entries: seq<MoveEntry>, job: Job, s: State, path: Path,
                              base: Usage, written: seq<int>, freed: seq<int>, u: Usage) {
    && AsPlanned(volumeOf, usage, entries, path, base) && |job.moves| == |entries|
    && Physical(job, s, written, freed) && Reads(volumeOf, entries, base, written, freed, path, u)
  }

  /** The environment does its part: storage is there, the disk is read truly, the app accepts, confirms
      and records. */
  ghost predicate Smooth(volumeOf: map<Path, nat>, usage: map<Path, Usage>, entries: seq<MoveEntry>, job: Job, s: State, ev: Event)
    requires Enabled(job, s, ev)
  {
    match ev
    case Storage(_, ok) => ok
    case Room(k, reading) =>
      && reading.Some? && Head(s, k) < |entries|
      && exists base, written, freed :: TrueReading(volumeOf, usage, entries, job, s, entries[Head(s, k)].toPath, base, written, freed, reading.value)
    case Answered(_, answer) => answer == Accepted
    case Settled(_, confirmed) => confirmed
    case Recorded(_, ok) => ok
    case _ => true
  }

  ghost predicate SmoothRun(volumeOf: map<Path, nat>, usage: map<Path, Usage>, entries: seq<MoveEntry>, job: Job, s: State, events: seq<Event>)
    decreases |events|
  {
    events == []
    || (Enabled(job, s, events[0]) && WellSized(job, s) && Smooth(volumeOf, usage, entries, job, s, events[0])
        && SmoothRun(volumeOf, usage, entries, job, Step(job, s, events[0]), events[1..]))
  }

  ghost predicate NothingFailed(s: State) {
    && s.phaseLanded && (forall i :: 0 <= i < |s.status| ==> s.status[i] != Failed)
    && forall k :: k in s.workers ==> s.workers[k].stage != Blocking
  }

  lemma {:induction false} SmoothStep(volumeOf: map<Path, nat>, usage: map<Path, Usage>, entries: seq<MoveEntry>, job: Job, s: State, ev: Event)
    requires Coherent(volumeOf, usage) && Sound(volumeOf, usage, entries) && Runs(job, entries, volumeOf)
    requires Inv(job, s) && Enabled(job, s, ev) && WellSized(job, s) && Smooth(volumeOf, usage, entries, job, s, ev)
    requires NothingFailed(s)
    ensures NothingFailed(Step(job, s, ev))
  {
    match ev {
      case Room(k, reading) =>
        var base, written, freed :| TrueReading(volumeOf, usage, entries, job, s, entries[Head(s, k)].toPath, base, written, freed, reading.value);
        NeverRefused(volumeOf, usage, entries, job, s, k, base, written, freed, reading.value);
        GoesOn(s, k, Proceed(Requesting));
      case Begin(k) => GoesOn(s, k, Proceed(Checking));
      case Storage(k, _) => GoesOn(s, k, Proceed(Verifying));
      case Answered(k, _) => GoesOn(s, k, Proceed(Settling).(requests := true));
      case Settled(k, _) => GoesOn(s, k, Proceed(Recording).(lands := true));
      case Recorded(k, _) => GoesOn(s, k, Effect(Done, true, Idle, false, false, false, false));
      case Block(k) =>
      case NextPhase =>
    }
  }

  lemma {:induction false} GoesOn(s: State, k: VolumeKey, eff: Effect)
    requires NothingFailed(s) && Busy(s, k) && Head(s, k) < |s.status|
    requires eff.status != Failed && eff.stage != Blocking && !eff.missed
    ensures NothingFailed(Perform(s, k, eff))
  {
  }

  lemma {:induction false} SmoothKeeps(volumeOf: map<Path, nat>, usage: map<Path, Usage>, entries: seq<MoveEntry>, job: Job, s: State, events: seq<Event>) returns (end: State)
    requires Coherent(volumeOf, usage) && Sound(volumeOf, usage, entries) && Runs(job, entries, volumeOf)
    requires Inv(job, s) && NothingFailed(s) && SmoothRun(volumeOf, usage, entries, job, s, events)
    ensures Reached(job, s, events) == Some(end) && Inv(job, end) && NothingFailed(end)
    decreases |events|
  {
    if events == [] {
      end := s;
    } else {
      StepKeepsInv(job, s, events[0]);
      SmoothStep(volumeOf, usage, entries, job, s, events[0]);
      end := SmoothKeeps(volumeOf, usage, entries, job, Step(job, s, events[0]), events[1..]);
    }
  }

  /** In a smooth run of a sound plan no move ever fails, and when it is done every move is. */
  lemma {:induction false} SmoothRunsComplete(volumeOf: map<Path, nat>, usage: map<Path, Usage>, entries: seq<MoveEntry>, job: Job, events: seq<Event>) returns (end: State)
    requires Coherent(volumeOf, usage) && Sound(volumeOf, usage, entries) && Runs(job, entries, volumeOf)
    requires SmoothRun(volumeOf, usage, entries, job, Start(job), events)
    ensures Reached(job, Start(job), events) == Some(end)
    ensures |end.status| == |entries|
    ensures forall i :: 0 <= i < |entries| ==> end.status[i] != Failed && (end.done ==> end.status[i] == Done)
  {
    InvStart(job);
    end := SmoothKeeps(volumeOf, usage, entries, job, Start(job), events);
    forall i: nat | i < |entries| && end.done
      ensures end.status[i] == Done
    {
      DoneIsFinished(job, end, i);
    }
  }
}
