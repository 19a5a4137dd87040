/** Why entries fail: a run gives up no more than it has to (internal/mover). */
module MoverFailures {
  import opened DiskUsage
  import opened PlannerModel
  import opened Mover
  import opened MoverProofs
  import opened MoverRuns

  // ----- an entry's own checks

  /** There are bytes to move, and the destination cannot be read, lacks them, or would be over its ceiling with them. */
  predicate LacksRoom(reading: Option<Usage>, m: Move) {
    && m.size > 0
    && (reading.None? || m.size > reading.value.free
        || (m.ceiling > 0.0 && (reading.value.used + m.size) as real * 100.0 > m.ceiling * (reading.value.used + reading.value.free) as real))
  }

  lemma {:induction false} ShareOver(part: real, whole: real, ceiling: real)
    requires whole > 0.0
    ensures part / whole * 100.0 > ceiling <==> part * 100.0 > ceiling * whole
  {
    var share := part / whole;
    assert share * whole == part;
    if share * 100.0 > ceiling {
      assert (share * 100.0 - ceiling) * whole > 0.0;
    } else {
      assert (ceiling - share * 100.0) * whole >= 0.0;
    }
  }

  /** The room check refuses an entry exactly when there is no room for it. */
  lemma {:induction false} RoomInNumbers(reading: Option<Usage>, m: Move)
    ensures HasRoom(reading, m) <==> !LacksRoom(reading, m)
  {
    if m.size > 0 && reading.Some? && m.size <= reading.value.free {
      ShareOver((reading.value.used + m.size) as real, (reading.value.used + reading.value.free) as real, m.ceiling);
    }
  }

  /** The event tells the entry in hand that its storage is not healthy, or that it has no room. */
  predicate TurnsBack(job: Job, s: State, ev: Event)
    requires Enabled(job, s, ev) && WellSized(job, s)
  {
    match ev
    case Storage(_, ok) => !ok
    case Room(k, reading) => LacksRoom(reading, job.moves[Head(s, k)])
    case _ => false
  }

  /** The entries that failed a check of their own on the way. */
  ghost function TurnedBack(job: Job, s: State, events: seq<Event>): set<nat>
    decreases |events|
  {
    if events == [] || !Enabled(job, s, events[0]) || !WellSized(job, s) then {}
    else
      (if TurnsBack(job, s, events[0]) then {Head(s, events[0].key)} else {}) + TurnedBack(job, Step(job, s, events[0]), events[1..])
  }

  // ----- why a queue is stopped, and why an entry failed

  /** An earlier entry of its queue in this phase was given up on while its transfer may still be running. */
  ghost predicate BehindAbandoned(job: Job, s: State, i: nat, j: nat) {
    && i < |job.moves| && j < |job.moves| && j < i
    && Abandoned(job, s, j) && SameQueue(job, i, j) && job.moves[j].phase == job.moves[i].phase
  }

  ghost predicate AfterUnlanded(job: Job, s: State, i: nat, j: nat) {
    i < |job.moves| && j < |job.moves| && job.moves[j].phase < job.moves[i].phase && j !in s.landed
  }

  ghost predicate WhyFailed(job: Job, s: State, turned: set<nat>, i: nat) {
    || i in turned
    || (exists j :: BehindAbandoned(job, s, i, j))
    || (s.done && exists j :: AfterUnlanded(job, s, i, j))
  }

  /** That transfer is what stopped the queue. */
  ghost predicate StoppedBy(job: Job, s: State, k: VolumeKey, j: nat) {
    && s.at < |job.phases| && k in s.workers && InQueue(job, job.phases[s.at], k, j) && Abandoned(job, s, j)
    && forall t :: t in s.workers[k].todo ==> j < t
  }

  ghost predicate Stopped(job: Job, s: State, k: VolumeKey) {
    exists j :: StoppedBy(job, s, k, j)
  }

  /** Failed without ever being requested. */
  predicate Unattempted(s: State, i: nat) {
    i < |s.status| && s.status[i] == Failed && i !in s.requests
  }

  ghost predicate Explained(job: Job, s: State, turned: set<nat>) {
    && (forall i: nat :: i < |job.moves| && Unattempted(s, i) ==> WhyFailed(job, s, turned, i))
    && (forall i :: i in turned ==> Unattempted(s, i))
    && forall k :: k in s.workers && s.workers[k].stage == Blocking ==> Stopped(job, s, k)
  }

  // ----- a worker's step

  lemma {:induction false} WhyStays(job: Job, s: State, ev: Event, turned: set<nat>, i: nat)
    requires Inv(job, s) && Enabled(job, s, ev) && WellSized(job, s) && WhyFailed(job, s, turned, i)
    ensures WhyFailed(job, Step(job, s, ev), turned, i)
  {
    if i !in turned {
      var j :| BehindAbandoned(job, s, i, j);
      AbandonedStays(job, s, ev, j);
      assert BehindAbandoned(job, Step(job, s, ev), i, j);
    }
  }

  lemma {:induction false} WhyHeadFailed(job: Job, s: State, ev: Event, turned: set<nat>)
    requires Inv(job, s) && Enabled(job, s, ev) && WellSized(job, s) && !ev.NextPhase? && Explained(job, s, turned)
    requires Unattempted(Step(job, s, ev), Head(s, ev.key))
    ensures TurnsBack(job, s, ev) || exists j :: BehindAbandoned(job, Step(job, s, ev), Head(s, ev.key), j)
  {
    var h := Head(s, ev.key);
    EffectLegal(job, s, ev);
    HeadFacts(job, s, ev.key, EffectOf(ev, job.moves[h]));
    if ev.Room? {
      RoomInNumbers(ev.reading, job.moves[h]);
    } else if ev.Block? {
      var j :| StoppedBy(job, s, ev.key, j);
      assert h in s.workers[ev.key].todo;
      AbandonedStays(job, s, ev, j);
      assert BehindAbandoned(job, Step(job, s, ev), h, j);
    }
  }

  lemma {:induction false} OnlyHeadChanges(job: Job, s: State, ev: Event, i: nat)
    requires Enabled(job, s, ev) && WellSized(job, s) && !ev.NextPhase? && i < |job.moves| && i != Head(s, ev.key)
    ensures Step(job, s, ev).status[i] == s.status[i] && (i in Step(job, s, ev).requests <==> i in s.requests)
  {
    var h := Head(s, ev.key);
    assert i in s.requests + [h] <==> i in s.requests;
  }

  /** What the step's event adds to those turned back. */
  ghost function NowTurned(job: Job, s: State, ev: Event): set<nat>
    requires Enabled(job, s, ev) && WellSized(job, s)
  {
    if TurnsBack(job, s, ev) then {Head(s, ev.key)} else {}
  }

  lemma {:induction false} FailuresExplained(job: Job, s: State, ev: Event, turned: set<nat>, i: nat)
    requires Inv(job, s) && Enabled(job, s, ev) && WellSized(job, s) && !ev.NextPhase? && Explained(job, s, turned)
    requires i < |job.moves| && Unattempted(Step(job, s, ev), i)
    ensures WhyFailed(job, Step(job, s, ev), turned + NowTurned(job, s, ev), i)
  {
    if i == Head(s, ev.key) {
      WhyHeadFailed(job, s, ev, turned);
    } else {
      OnlyHeadChanges(job, s, ev, i);
      WhyStays(job, s, ev, turned, i);
    }
  }

  lemma {:induction false} TurnedStays(job: Job, s: State, ev: Event, turned: set<nat>, i: nat)
    requires Inv(job, s) && Enabled(job, s, ev) && WellSized(job, s) && !ev.NextPhase? && Explained(job, s, turned)
    requires i in turned + NowTurned(job, s, ev)
    ensures Unattempted(Step(job, s, ev), i)
  {
    var h := Head(s, ev.key);
    EffectLegal(job, s, ev);
    HeadFacts(job, s, ev.key, EffectOf(ev, job.moves[h]));
    if i != h {
      OnlyHeadChanges(job, s, ev, i);
    } else if ev.Room? {
      RoomInNumbers(ev.reading, job.moves[h]);
    }
  }

  lemma {:induction false} StoppedStays(job: Job, s: State, ev: Event, k: VolumeKey, j: nat)
    requires Inv(job, s) && Enabled(job, s, ev) && WellSized(job, s) && !ev.NextPhase? && StoppedBy(job, s, k, j)
    ensures StoppedBy(job, Step(job, s, ev), k, j)
  {
    AbandonedStays(job, s, ev, j);
    EffectLegal(job, s, ev);
    HeadFacts(job, s, ev.key, EffectOf(ev, job.moves[Head(s, ev.key)]));
  }

  /** A queue is stopped only by a transfer that may still be running. */
  lemma {:induction false} NewlyStopped(job: Job, s: State, ev: Event)
    requires Inv(job, s) && Enabled(job, s, ev) && WellSized(job, s) && !ev.NextPhase?
    requires s.workers[ev.key].stage != Blocking && Step(job, s, ev).workers[ev.key].stage == Blocking
    ensures StoppedBy(job, Step(job, s, ev), ev.key, Head(s, ev.key))
  {
    var h := Head(s, ev.key);
    EffectLegal(job, s, ev);
    HeadFacts(job, s, ev.key, EffectOf(ev, job.moves[h]));
    if ev.Answered? {
      assert h in s.requests + [h];
    }
  }

  lemma {:induction false} StopsExplained(job: Job, s: State, ev: Event, turned: set<nat>, k: VolumeKey)
    requires Inv(job, s) && Enabled(job, s, ev) && WellSized(job, s) && !ev.NextPhase? && Explained(job, s, turned)
    requires k in s.workers && Step(job, s, ev).workers[k].stage == Blocking
    ensures Stopped(job, Step(job, s, ev), k)
  {
    if s.workers[k].stage == Blocking {
      var j :| StoppedBy(job, s, k, j);
      StoppedStays(job, s, ev, k, j);
    } else {
      NewlyStopped(job, s, ev);
    }
  }

  // ----- the phase barrier

  lemma {:induction false} BarrierExplained(job: Job, s: State, turned: set<nat>)
    requires Inv(job, s) && Enabled(job, s, NextPhase) && WellSized(job, s) && Explained(job, s, turned)
    ensures Explained(job, Advance(job, s), turned)
  {
    var s' := Advance(job, s);
    forall i: nat | i < |job.moves| && Unattempted(s', i)
      ensures WhyFailed(job, s', turned, i)
    {
      GivenUpExplained(job, s, turned, i);
    }
    forall i | i in turned
      ensures Unattempted(s', i)
    {
      assert Unattempted(s, i);
    }
    forall k | k in s'.workers && s'.workers[k].stage == Blocking
      ensures Stopped(job, s', k)
    {
      BarrierStopped(job, s, k);
    }
  }

  lemma {:induction false} GivenUpExplained(job: Job, s: State, turned: set<nat>, i: nat)
    requires Inv(job, s) && Enabled(job, s, NextPhase) && WellSized(job, s) && Explained(job, s, turned)
    requires i < |job.moves| && Unattempted(Advance(job, s), i)
    ensures WhyFailed(job, Advance(job, s), turned, i)
  {
    if Unattempted(s, i) {
      WhyStays(job, s, NextPhase, turned, i);
    } else {
      var j: nat :| j < |job.moves| && Missed(job, s, j);
      assert AfterUnlanded(job, Advance(job, s), i, j);
    }
  }

  lemma {:induction false} BarrierStopped(job: Job, s: State, k: VolumeKey)
    requires Inv(job, s) && Enabled(job, s, NextPhase) && WellSized(job, s)
    requires k in Advance(job, s).workers && Advance(job, s).workers[k].stage == Blocking
    requires k in s.workers && s.workers[k].stage == Blocking ==> Stopped(job, s, k)
    ensures Stopped(job, Advance(job, s), k)
  {
    var j :| StoppedBy(job, s, k, j);
    AbandonedStays(job, s, NextPhase, j);
    assert StoppedBy(job, Advance(job, s), k, j);
  }

  // ----- whole runs

  lemma {:induction false} StepExplained(job: Job, s: State, ev: Event, turned: set<nat>)
    requires Inv(job, s) && Enabled(job, s, ev) && WellSized(job, s) && Explained(job, s, turned)
    ensures Explained(job, Step(job, s, ev), turned + NowTurned(job, s, ev))
  {
    if ev.NextPhase? {
      BarrierExplained(job, s, turned);
      assert turned + NowTurned(job, s, ev) == turned;
    } else {
      var s' := Step(job, s, ev);
      forall i: nat | i < |job.moves| && Unattempted(s', i)
        ensures WhyFailed(job, s', turned + NowTurned(job, s, ev), i)
      {
        FailuresExplained(job, s, ev, turned, i);
      }
      forall i | i in turned + NowTurned(job, s, ev)
        ensures Unattempted(s', i)
      {
        TurnedStays(job, s, ev, turned, i);
      }
      forall k | k in s'.workers && s'.workers[k].stage == Blocking
        ensures Stopped(job, s', k)
      {
        StopsExplained(job, s, ev, turned, k);
      }
    }
  }

  lemma {:induction false} RunExplained(job: Job, s: State, events: seq<Event>, turned: set<nat>)
    requires Inv(job, s) && Explained(job, s, turned) && Reached(job, s, events).Some?
    ensures Explained(job, Reached(job, s, events).value, turned + TurnedBack(job, s, events))
    decreases |events|
  {
    if events == [] {
      assert turned + TurnedBack(job, s, events) == turned;
    } else {
      var ev, rest := events[0], events[1..];
      StepExplained(job, s, ev, turned);
      StepKeepsInv(job, s, ev);
      RunExplained(job, Step(job, s, ev), rest, turned + NowTurned(job, s, ev));
      assert turned + NowTurned(job, s, ev) + TurnedBack(job, Step(job, s, ev), rest) == turned + TurnedBack(job, s, events);
    }
  }

  /** In every reachable state a stopped queue has an entry of this phase, before everything it has left, whose
      transfer may still be running. */
  lemma {:induction false} StoppedForAReason(job: Job, events: seq<Event>, k: VolumeKey) returns (j: nat)
    requires ValidJob(job) && Reached(job, Start(job), events).Some?
    requires var s := Reached(job, Start(job), events).value;
             k in s.workers && s.workers[k].stage == Blocking
    ensures StoppedBy(job, Reached(job, Start(job), events).value, k, j)
  {
    AllExplained(job, events);
    j :| StoppedBy(job, Reached(job, Start(job), events).value, k, j);
  }

  lemma {:induction false} AllExplained(job: Job, events: seq<Event>)
    requires ValidJob(job) && Reached(job, Start(job), events).Some?
    ensures Explained(job, Reached(job, Start(job), events).value, TurnedBack(job, Start(job), events))
  {
    InvStart(job);
    RunExplained(job, Start(job), events, {});
    assert {} + TurnedBack(job, Start(job), events) == TurnedBack(job, Start(job), events);
  }

  /** In every reachable state an entry that failed unrequested failed a check of its own, or comes behind one of its
      queue whose transfer may still be running, or is of a phase after one where something did not land. And
      whatever fails a check of its own is failed, and never requested. */
  lemma {:induction false} FailedForAReason(job: Job, events: seq<Event>, i: nat)
    requires ValidJob(job) && Reached(job, Start(job), events).Some? && i < |job.moves|
    ensures var s, turned := Reached(job, Start(job), events).value, TurnedBack(job, Start(job), events);
            && (Unattempted(s, i) ==> i in turned || (exists j :: BehindAbandoned(job, s, i, j)) || exists j :: AfterUnlanded(job, s, i, j))
            && (i in turned ==> Unattempted(s, i))
  {
    AllExplained(job, events);
  }

  // ----- what landed

  /** The entries that landed and could not be recorded. */
  ghost function Unrecorded(job: Job, s: State, events: seq<Event>): set<nat>
    decreases |events|
  {
    if events == [] || !Enabled(job, s, events[0]) || !WellSized(job, s) then {}
    else
      NowUnrecorded(job, s, events[0]) + Unrecorded(job, Step(job, s, events[0]), events[1..])
  }

  ghost function NowUnrecorded(job: Job, s: State, ev: Event): set<nat>
    requires Enabled(job, s, ev) && WellSized(job, s)
  {
    if ev.Recorded? && !ev.ok then {Head(s, ev.key)} else {}
  }

  /** What is done has landed, and what landed is failed exactly when it could not be recorded. */
  ghost predicate Outcome(s: State, unrecorded: set<nat>, i: nat) {
    && i < |s.status|
    && (s.status[i] == Done ==> i in s.landed)
    && (i in unrecorded <==> s.status[i] == Failed && i in s.landed)
  }

  ghost predicate Outcomes(job: Job, s: State, unrecorded: set<nat>) {
    forall i: nat :: i < |job.moves| ==> Outcome(s, unrecorded, i)
  }

  lemma {:induction false} HeadOutcome(job: Job, s: State, ev: Event, unrecorded: set<nat>)
    requires Inv(job, s) && Enabled(job, s, ev) && WellSized(job, s) && !ev.NextPhase?
    requires Outcome(s, unrecorded, Head(s, ev.key))
    ensures Outcome(Step(job, s, ev), unrecorded + NowUnrecorded(job, s, ev), Head(s, ev.key))
  {
    EffectLegal(job, s, ev);
    HeadFacts(job, s, ev.key, EffectOf(ev, job.moves[Head(s, ev.key)]));
  }

  lemma {:induction false} OutcomeKept(job: Job, s: State, ev: Event, unrecorded: set<nat>, i: nat)
    requires Inv(job, s) && Enabled(job, s, ev) && WellSized(job, s) && i < |job.moves| && Outcome(s, unrecorded, i)
    ensures Outcome(Step(job, s, ev), unrecorded + NowUnrecorded(job, s, ev), i)
  {
    if ev.NextPhase? {
      assert EntryOk(job, s, i);
    } else if i == Head(s, ev.key) {
      HeadOutcome(job, s, ev, unrecorded);
    } else {
      OnlyHeadChanges(job, s, ev, i);
    }
  }

  lemma {:induction false} RunOutcomes(job: Job, s: State, events: seq<Event>, unrecorded: set<nat>)
    requires Inv(job, s) && Outcomes(job, s, unrecorded) && Reached(job, s, events).Some?
    ensures Outcomes(job, Reached(job, s, events).value, unrecorded + Unrecorded(job, s, events))
    decreases |events|
  {
    if events == [] {
      assert unrecorded + Unrecorded(job, s, events) == unrecorded;
    } else {
      var ev, rest := events[0], events[1..];
      StepKeepsInv(job, s, ev);
      forall i: nat | i < |job.moves|
        ensures Outcome(Step(job, s, ev), unrecorded + NowUnrecorded(job, s, ev), i)
      {
        OutcomeKept(job, s, ev, unrecorded, i);
      }
      RunOutcomes(job, Step(job, s, ev), rest, unrecorded + NowUnrecorded(job, s, ev));
      assert unrecorded + NowUnrecorded(job, s, ev) + Unrecorded(job, Step(job, s, ev), rest) == unrecorded + Unrecorded(job, s, events);
    }
  }

  /** In every reachable state what is done has landed, what landed is failed exactly when it could not be recorded,
      and what failed after its request otherwise was turned down or may still be running. */
  lemma {:induction false} StatusMeans(job: Job, events: seq<Event>, i: nat)
    requires ValidJob(job) && Reached(job, Start(job), events).Some? && i < |job.moves|
    ensures var s := Reached(job, Start(job), events).value;
            && Outcome(s, Unrecorded(job, Start(job), events), i)
            && (s.status[i] == Failed && i in s.requests ==> i in s.rejected || i in s.landed || Abandoned(job, s, i))
            && (s.status[i] == Pending ==> i !in s.requests)
  {
    EveryRunInv(job, events);
    var s := Reached(job, Start(job), events).value;
    assert EntryOk(job, s, i);
    InvStart(job);
    RunOutcomes(job, Start(job), events, {});
    assert {} + Unrecorded(job, Start(job), events) == Unrecorded(job, Start(job), events);
  }
}
