/** What holds over whole runs of the move engine. */
module MoverRuns {
  import opened DiskUsage
  import opened PlannerModel
  import opened Mover
  import opened MoverProofs

  /** The state a run reaches through the given events, if each can happen when it does. */
  ghost function Reached(job: Job, s: State, events: seq<Event>): Option<State>
    decreases |events|
  {
    if events == [] then Some(s)
    else if Enabled(job, s, events[0]) && WellSized(job, s) then Reached(job, Step(job, s, events[0]), events[1..])
    else None
  }

  lemma {:induction false} ReachedInv(job: Job, s: State, events: seq<Event>)
    requires Inv(job, s) && Reached(job, s, events).Some?
    ensures Inv(job, Reached(job, s, events).value)
    decreases |events|
  {
    if events != [] {
      StepKeepsInv(job, s, events[0]);
      ReachedInv(job, Step(job, s, events[0]), events[1..]);
    }
  }

  /** Every state any run can reach satisfies the invariant. */
  lemma {:induction false} EveryRunInv(job: Job, events: seq<Event>)
    requires ValidJob(job) && Reached(job, Start(job), events).Some?
    ensures Inv(job, Reached(job, Start(job), events).value)
  {
    InvStart(job);
    ReachedInv(job, Start(job), events);
  }

  // ----- volume exclusion

  /** A transfer that may be running: requested, and neither landed nor definitely turned down. */
  predicate Writing(s: State, i: nat) {
    i in s.requests && !Over(s, i)
  }

  /** In every reachable state at most one transfer per queue may be writing. */
  lemma {:induction false} OneWriterPerVolume(job: Job, events: seq<Event>, i: nat, j: nat)
    requires ValidJob(job) && Reached(job, Start(job), events).Some?
    requires var s := Reached(job, Start(job), events).value;
             Writing(s, i) && Writing(s, j) && i < |job.keys| && j < |job.keys| && job.keys[i] == job.keys[j]
    ensures i == j
  {
    EveryRunInv(job, events);
    var s := Reached(job, Start(job), events).value;
    var a: nat :| a < |s.requests| && s.requests[a] == i;
    var b: nat :| b < |s.requests| && s.requests[b] == j;
    if a < b {
      NoLaterRequest(job, s, a, b);
    } else if b < a {
      NoLaterRequest(job, s, b, a);
    }
  }

  /** A request that may still be writing is the last one its queue made. */
  lemma {:induction false} NoLaterRequest(job: Job, s: State, a: nat, b: nat)
    requires Exclusive(job, s) && a < b < |s.requests| && !Over(s, s.requests[a])
    ensures !SameQueue(job, s.requests[a], s.requests[b])
  {
  }

  /** An entry given up on while its transfer may still be running. */
  predicate Abandoned(job: Job, s: State, i: nat) {
    i < |s.status| && i < |job.keys| && Terminal(s.status[i]) && Writing(s, i)
  }

  lemma {:induction false} AbandonedStays(job: Job, s: State, ev: Event, i: nat)
    requires Inv(job, s) && Enabled(job, s, ev) && WellSized(job, s) && Abandoned(job, s, i)
    ensures Abandoned(job, Step(job, s, ev), i)
    ensures s.requests <= Step(job, s, ev).requests
  {
    if !ev.NextPhase? {
      EffectLegal(job, s, ev);
      var eff := EffectOf(ev, job.moves[Head(s, ev.key)]);
      HeadFacts(job, s, ev.key, eff);
      AbandonedNotHead(job, s, ev.key, i);
    } else {
      assert EntryOk(job, s, i);
    }
  }

  lemma {:induction false} AbandonedNotHead(job: Job, s: State, k: VolumeKey, i: nat)
    requires Inv(job, s) && job.phases != [] && Busy(s, k) && Abandoned(job, s, i)
    ensures i != Head(s, k)
  {
    assert WorkerOk(job, s, k);
    assert Head(s, k) in s.workers[k].todo;
    assert EntryOk(job, s, Head(s, k));
  }

  lemma {:induction false} AbandonedForGood(job: Job, s: State, events: seq<Event>, i: nat)
    requires Inv(job, s) && Abandoned(job, s, i) && Reached(job, s, events).Some?
    ensures Abandoned(job, Reached(job, s, events).value, i) && s.requests <= Reached(job, s, events).value.requests
    decreases |events|
  {
    if events != [] {
      StepKeepsInv(job, s, events[0]);
      AbandonedStays(job, s, events[0], i);
      AbandonedForGood(job, Step(job, s, events[0]), events[1..], i);
    }
  }

  /** Once a transfer is given up on while it may still be running, its queue makes no further request
      for the rest of the run, in this phase or a later one. */
  lemma {:induction false} NoMoveAfterAbandoned(job: Job, before: seq<Event>, after: seq<Event>, i: nat, b: nat)
    requires ValidJob(job) && Reached(job, Start(job), before).Some?
    requires var s := Reached(job, Start(job), before).value;
             && Abandoned(job, s, i) && Reached(job, s, after).Some?
             && |s.requests| <= b < |Reached(job, s, after).value.requests|
    ensures var s' := Reached(job, Reached(job, Start(job), before).value, after).value;
            s'.requests[b] < |job.keys| && job.keys[s'.requests[b]] != job.keys[i]
  {
    EveryRunInv(job, before);
    var s := Reached(job, Start(job), before).value;
    AbandonedForGood(job, s, after, i);
    ReachedInv(job, s, after);
    var s' := Reached(job, s, after).value;
    var a :| 0 <= a < |s.requests| && s.requests[a] == i;
    assert s'.requests[a] == i && s'.requests[b] in s'.requests;
    assert a < b;
    NoLaterRequest(job, s', a, b);
  }

  // ----- phases and statuses

  /** In every reachable state, an entry has been requested only if every entry of every lower phase has
      landed, and no entry has been requested twice. */
  lemma {:induction false} PhaseBarrier(job: Job, events: seq<Event>, i: nat, j: nat)
    requires ValidJob(job) && Reached(job, Start(job), events).Some? && j < |job.moves|
    requires i in Reached(job, Start(job), events).value.requests && i < |job.moves| && job.moves[j].phase < job.moves[i].phase
    ensures j in Reached(job, Start(job), events).value.landed && NoRepeats(Reached(job, Start(job), events).value.requests)
  {
    EveryRunInv(job, events);
    var s := Reached(job, Start(job), events).value;
    assert EntryOk(job, s, i) && EntryOk(job, s, j);
  }

  /** When a run is done nothing is left pending or moving. */
  lemma {:induction false} DoneIsFinished(job: Job, s: State, i: nat)
    requires Inv(job, s) && s.done && i < |job.moves|
    ensures Terminal(s.status[i])
  {
    assert EntryOk(job, s, i);
    if s.phaseLanded && job.moves[i].phase > job.phases[s.at] {
      PhaseGap(job, i, s.at);
    }
  }

  /** The ways an entry's status can change in one step. */
  predicate StatusStep(before: Status, after: Status) {
    after == before || (before == Pending && after == Moving) || (!Terminal(before) && Terminal(after))
  }

  /** An entry goes from pending to done or failed, through moving if it was ever taken up, and stays. */
  lemma {:induction false} StatusPath(job: Job, s: State, ev: Event, i: nat)
    requires Inv(job, s) && Enabled(job, s, ev) && WellSized(job, s) && i < |job.moves|
    ensures StatusStep(s.status[i], Step(job, s, ev).status[i])
    ensures Step(job, s, ev).status[i] == Done ==> s.status[i] == Done || s.status[i] == Moving
  {
    assert EntryOk(job, s, i);
    if !ev.NextPhase? {
      WorkerStatusPath(job, s, ev, i);
    }
  }

  lemma {:induction false} WorkerStatusPath(job: Job, s: State, ev: Event, i: nat)
    requires Inv(job, s) && Enabled(job, s, ev) && WellSized(job, s) && i < |job.moves| && !ev.NextPhase?
    ensures StatusStep(s.status[i], Step(job, s, ev).status[i])
    ensures Step(job, s, ev).status[i] == Done ==> s.status[i] == Done || s.status[i] == Moving
  {
    EffectLegal(job, s, ev);
    HeadFacts(job, s, ev.key, EffectOf(ev, job.moves[Head(s, ev.key)]));
  }

  /** The run goes on to the next phase exactly when everything in this one has landed - an entry that
      landed but could not be recorded is failed, and blocks nothing. */
  lemma {:induction false} BarrierOpens(job: Job, s: State)
    requires Inv(job, s) && Enabled(job, s, NextPhase) && s.at + 1 < |job.phases|
    ensures Advance(job, s).at == s.at + 1 <==> forall i: nat :: i < |job.moves| && job.moves[i].phase <= job.phases[s.at] ==> i in s.landed
    ensures Advance(job, s).at != s.at + 1 ==>
              forall i: nat :: i < |job.moves| && job.moves[i].phase > job.phases[s.at] ==> Advance(job, s).status[i] == Failed
  {
    AtBarrier(job, s);
  }

  // ----- every run ends

  /** How many more steps an entry can take at most. */
  ghost function Rank(job: Job, s: State, i: nat): nat
    requires i < |job.keys| && i < |s.status|
  {
    match s.status[i]
    case Done => 0
    case Failed => 0
    case Pending => 6
    case Moving =>
      if job.keys[i] !in s.workers then 0
      else match s.workers[job.keys[i]].stage
        case Checking => 5
        case Verifying => 4
        case Requesting => 3
        case Settling => 2
        case _ => 1
  }

  ghost function RankSum(job: Job, s: State, n: nat): nat
    requires n <= |job.keys| && n <= |s.status|
  {
    if n == 0 then 0 else RankSum(job, s, n - 1) + Rank(job, s, n - 1)
  }

  /** An upper bound on the steps a run has left. */
  ghost function StepsLeft(job: Job, s: State): nat
    requires |s.status| == |job.keys|
  {
    RankSum(job, s, |job.keys|) + if s.done || s.at >= |job.phases| then 0 else |job.phases| - s.at
  }

  lemma {:induction false} RankSumLess(job: Job, s: State, s': State, n: nat, h: nat)
    requires n <= |job.keys| && n <= |s.status| == |s'.status|
    requires forall i: nat :: i < n && i != h ==> Rank(job, s', i) <= Rank(job, s, i)
    requires h < n ==> Rank(job, s', h) < Rank(job, s, h)
    ensures RankSum(job, s', n) + (if h < n then 1 else 0) <= RankSum(job, s, n)
    decreases n
  {
    if n > 0 {
      RankSumLess(job, s, s', n - 1, h);
    }
  }

  lemma {:induction false} WorkerStepRanks(job: Job, s: State, ev: Event)
    requires Inv(job, s) && Enabled(job, s, ev) && WellSized(job, s) && !ev.NextPhase?
    ensures var h, s' := Head(s, ev.key), Step(job, s, ev);
            && h < |job.moves| && Rank(job, s', h) < Rank(job, s, h)
            && forall i: nat :: i < |job.moves| && i != h ==> Rank(job, s', i) == Rank(job, s, i)
  {
    HeadRankFalls(job, s, ev);
    forall i: nat | i < |job.moves| && i != Head(s, ev.key)
      ensures Rank(job, Step(job, s, ev), i) == Rank(job, s, i)
    {
      OtherRankKept(job, s, ev, i);
    }
  }

  lemma {:induction false} HeadRankFalls(job: Job, s: State, ev: Event)
    requires Inv(job, s) && Enabled(job, s, ev) && WellSized(job, s) && !ev.NextPhase?
    ensures Head(s, ev.key) < |job.moves| && Rank(job, Step(job, s, ev), Head(s, ev.key)) < Rank(job, s, Head(s, ev.key))
  {
    EffectLegal(job, s, ev);
    HeadFacts(job, s, ev.key, EffectOf(ev, job.moves[Head(s, ev.key)]));
  }

  lemma {:induction false} OtherRankKept(job: Job, s: State, ev: Event, i: nat)
    requires Inv(job, s) && Enabled(job, s, ev) && WellSized(job, s) && !ev.NextPhase?
    requires i < |job.moves| && i != Head(s, ev.key)
    ensures Rank(job, Step(job, s, ev), i) == Rank(job, s, i)
  {
    assert EntryOk(job, s, i);
    if job.keys[i] == ev.key && s.status[i] == Moving {
      OnlyHeadMoves(job, s, ev.key, i);
    }
  }

  lemma {:induction false} OnlyHeadMoves(job: Job, s: State, k: VolumeKey, i: nat)
    requires Inv(job, s) && job.phases != [] && Busy(s, k) && i < |job.moves| && job.keys[i] == k && s.status[i] == Moving
    ensures i == Head(s, k)
  {
    assert EntryOk(job, s, i);
  }

  lemma {:induction false} StepsDecrease(job: Job, s: State, ev: Event)
    requires Inv(job, s) && Enabled(job, s, ev) && WellSized(job, s)
    ensures |Step(job, s, ev).status| == |s.status|
    ensures StepsLeft(job, Step(job, s, ev)) < StepsLeft(job, s)
  {
    var s' := Step(job, s, ev);
    if ev.NextPhase? {
      AtBarrier(job, s);
      forall i: nat | i < |job.moves|
        ensures Rank(job, s', i) <= Rank(job, s, i)
      {
        assert EntryOk(job, s, i);
      }
      RankSumLess(job, s, s', |job.keys|, |job.keys|);
    } else {
      WorkerStepRanks(job, s, ev);
      RankSumLess(job, s, s', |job.keys|, Head(s, ev.key));
    }
  }

  lemma {:induction false} ReachedSteps(job: Job, s: State, events: seq<Event>)
    requires Inv(job, s) && Reached(job, s, events).Some?
    ensures |Reached(job, s, events).value.status| == |job.keys|
    ensures |events| + StepsLeft(job, Reached(job, s, events).value) <= StepsLeft(job, s)
    decreases |events|
  {
    if events != [] {
      StepKeepsInv(job, s, events[0]);
      StepsDecrease(job, s, events[0]);
      ReachedSteps(job, Step(job, s, events[0]), events[1..]);
    }
  }

  lemma {:induction false} PendingRanks(job: Job, s: State, n: nat)
    requires n <= |job.keys| && n <= |s.status| && forall i :: 0 <= i < n ==> s.status[i] == Pending
    ensures RankSum(job, s, n) == 6 * n
  {
    if n > 0 {
      PendingRanks(job, s, n - 1);
    }
  }

  /** No run takes more than six steps an entry and one a phase ... */
  lemma {:induction false} RunsEnd(job: Job, events: seq<Event>)
    requires ValidJob(job) && Reached(job, Start(job), events).Some?
    ensures |events| <= 6 * |job.moves| + |job.phases|
  {
    InvStart(job);
    ReachedSteps(job, Start(job), events);
    PendingRanks(job, Start(job), |job.keys|);
  }

  /** ... and no run that is not done is stuck. */
  lemma {:induction false} SomethingCanHappen(job: Job, s: State) returns (ev: Event)
    requires Inv(job, s) && !s.done
    ensures Enabled(job, s, ev)
  {
    if forall k :: k in s.workers ==> s.workers[k].todo == [] {
      ev := NextPhase;
    } else {
      var k :| k in s.workers && s.workers[k].todo != [];
      match s.workers[k].stage
      case Idle => ev := Begin(k);
      case Checking => ev := Storage(k, true);
      case Verifying => ev := Room(k, None);
      case Requesting => ev := Answered(k, Accepted);
      case Settling => ev := Settled(k, true);
      case Recording => ev := Recorded(k, true);
      case Blocking => ev := Block(k);
    }
  }
}
