/** Every step of a run keeps its invariant. */
module MoverProofs {
  import opened DiskUsage
  import opened PlannerModel
  import opened Mover

  lemma {:induction false} QueueMembers(job: Job, phase: int, key: VolumeKey, j: nat)
    ensures forall i: nat :: i in QueueFrom(job, phase, key, j) <==> j <= i && InQueue(job, phase, key, i)
    ensures forall a, b :: 0 <= a < b < |QueueFrom(job, phase, key, j)| ==> QueueFrom(job, phase, key, j)[a] < QueueFrom(job, phase, key, j)[b]
    decreases |job.moves| - j
  {
    if j < |job.moves| {
      QueueMembers(job, phase, key, j + 1);
      var rest := QueueFrom(job, phase, key, j + 1);
      assert forall a :: 0 <= a < |rest| ==> rest[a] in rest;
    }
  }

  /** Workers freshly set up for a phase have exactly its entries, each queue in plan order. */
  lemma {:induction false} FreshWorkers(job: Job, s: State, i: nat)
    requires ValidJob(job) && i < |job.moves| == |s.status| && s.at < |job.phases| && !s.done
    requires s.workers == WorkersFor(job, job.phases[s.at]) && job.moves[i].phase == job.phases[s.at]
    requires s.status[i] == Pending && i !in s.requests && i !in s.landed && i !in s.rejected
    ensures EntryOk(job, s, i)
  {
    var k := job.keys[i];
    assert InQueue(job, job.phases[s.at], k, i);
    QueueMembers(job, job.phases[s.at], k, 0);
  }

  lemma {:induction false} FreshWorkerOk(job: Job, s: State, k: VolumeKey)
    requires s.at < |job.phases| && s.workers == WorkersFor(job, job.phases[s.at]) && k in s.workers
    ensures WorkerOk(job, s, k)
  {
    QueueMembers(job, job.phases[s.at], k, 0);
  }

  lemma {:induction false} PhaseGap(job: Job, i: nat, at: nat)
    requires ValidJob(job) && i < |job.moves| && at < |job.phases| && job.moves[i].phase > job.phases[at]
    ensures at + 1 < |job.phases| && job.moves[i].phase >= job.phases[at + 1]
  {
    var a :| 0 <= a < |job.phases| && job.phases[a] == job.moves[i].phase;
    assert a > at;
  }

  lemma {:induction false} PhaseFloor(job: Job, i: nat)
    requires ValidJob(job) && i < |job.moves|
    ensures job.phases != [] && job.moves[i].phase >= job.phases[0]
  {
    var a :| 0 <= a < |job.phases| && job.phases[a] == job.moves[i].phase;
  }

  lemma {:induction false} InvStart(job: Job)
    requires ValidJob(job)
    ensures Inv(job, Start(job))
  {
    var s := Start(job);
    if job.phases != [] {
      forall i: nat | i < |job.moves|
        ensures EntryOk(job, s, i)
      {
        PhaseFloor(job, i);
        if job.moves[i].phase == job.phases[0] {
          FreshWorkers(job, s, i);
        }
      }
      forall k | k in s.workers
        ensures WorkerOk(job, s, k)
      {
        FreshWorkerOk(job, s, k);
      }
    }
  }

  // ----- a worker's step

  /** The effects a worker at the given stage can have. */
  ghost predicate LegalEffect(stage: Stage, eff: Effect) {
    if !eff.leaves then
      && eff.status == Moving && !eff.rejects && !eff.missed
      && (eff.requests <==> stage == Requesting) && (eff.lands <==> stage == Settling)
      && match stage {
        case Idle => eff.stage == Checking
        case Checking => eff.stage == Verifying
        case Verifying => eff.stage == Requesting
        case Requesting => eff.stage == Settling
        case Settling => eff.stage == Recording
        case _ => false
      }
    else
      && Terminal(eff.status) && !eff.lands && stage != Idle
      && (eff.requests <==> stage == Requesting) && (eff.rejects ==> eff.requests)
      && (eff.missed <==> stage != Recording)
      && (eff.stage == Blocking || eff.stage == Idle)
      && (eff.stage == Idle ==> stage != Settling && stage != Blocking && (stage == Requesting ==> eff.rejects))
      && (eff.stage == Blocking ==> !eff.rejects)
  }

  lemma {:induction false} EffectLegal(job: Job, s: State, ev: Event)
    requires Enabled(job, s, ev) && WellSized(job, s) && !ev.NextPhase?
    ensures LegalEffect(s.workers[ev.key].stage, EffectOf(ev, job.moves[Head(s, ev.key)]))
  {
  }

  /** What a worker's step starts from. */
  ghost predicate AtWork(job: Job, s: State, k: VolumeKey, eff: Effect) {
    && Inv(job, s) && !s.done && job.phases != []
    && Busy(s, k) && LegalEffect(s.workers[k].stage, eff)
  }

  lemma {:induction false} HeadFacts(job: Job, s: State, k: VolumeKey, eff: Effect)
    requires AtWork(job, s, k, eff)
    ensures var h := Head(s, k);
            && h < |job.moves| && InQueue(job, job.phases[s.at], k, h)
            && InHand(s, h, s.workers[k].stage)
            && h !in s.workers[k].todo[1..]
            && forall t :: t in s.workers[k].todo[1..] ==> h < t && t in s.workers[k].todo
  {
    var w := s.workers[k];
    assert WorkerOk(job, s, k);
    assert w.todo[0] in w.todo;
    assert EntryOk(job, s, w.todo[0]);
    forall t | t in w.todo[1..]
      ensures w.todo[0] < t && t in w.todo
    {
      var a :| 0 <= a < |w.todo[1..]| && w.todo[1..][a] == t;
      assert w.todo[a + 1] == t;
    }
  }

  lemma {:induction false} HeadKept(job: Job, s: State, k: VolumeKey, eff: Effect)
    requires AtWork(job, s, k, eff)
    ensures Head(s, k) < |s.status| && EntryOk(job, Perform(s, k, eff), Head(s, k))
  {
    HeadFacts(job, s, k, eff);
    var h, s' := Head(s, k), Perform(s, k, eff);
    assert forall i :: i in s.requests + [h] <==> i in s.requests || i == h;
    assert h in s.workers[k].todo;
  }

  lemma {:induction false} OtherKept(job: Job, s: State, k: VolumeKey, eff: Effect, i: nat)
    requires AtWork(job, s, k, eff) && i < |job.moves|
    requires Head(s, k) < |s.status| && i != Head(s, k)
    ensures EntryOk(job, Perform(s, k, eff), i)
  {
    HeadFacts(job, s, k, eff);
    var h, s', w := Head(s, k), Perform(s, k, eff), s.workers[k];
    assert EntryOk(job, s, i);
    assert i in s'.requests <==> i in s.requests;
    assert s'.status[i] == s.status[i];
    NotInFront(w.todo, i);
  }

  lemma {:induction false} NotInFront(todo: seq<nat>, i: nat)
    requires todo != [] && todo[0] != i
    ensures i in todo <==> i in todo[1..]
  {
    assert todo == [todo[0]] + todo[1..];
  }

  lemma {:induction false} WorkersKept(job: Job, s: State, k: VolumeKey, eff: Effect, k': VolumeKey)
    requires AtWork(job, s, k, eff) && k' in s.workers && Head(s, k) < |s.status|
    ensures WorkerOk(job, Perform(s, k, eff), k')
  {
    HeadFacts(job, s, k, eff);
    assert WorkerOk(job, s, k');
  }

  lemma {:induction false} HistoryKept(job: Job, s: State, k: VolumeKey, eff: Effect)
    requires AtWork(job, s, k, eff) && Head(s, k) < |s.status|
    ensures HistoryOk(job, Perform(s, k, eff))
  {
    HeadFacts(job, s, k, eff);
    var h := Head(s, k);
    assert forall i :: i in s.requests + [h] <==> i in s.requests || i == h;
  }

  /** When a worker is about to request a move, every earlier request to its queue is over. */
  lemma {:induction false} EarlierRequestsOver(job: Job, s: State, k: VolumeKey, r: nat)
    requires Inv(job, s) && job.phases != [] && Busy(s, k) && s.workers[k].stage == Requesting
    requires r in s.requests && job.keys[r] == k
    ensures Over(s, r)
  {
    assert EntryOk(job, s, r);
    assert WorkerOk(job, s, k);
  }

  lemma {:induction false} ExclusiveKept(job: Job, s: State, k: VolumeKey, eff: Effect)
    requires AtWork(job, s, k, eff) && Head(s, k) < |s.status|
    ensures Exclusive(job, Perform(s, k, eff))
  {
    HeadFacts(job, s, k, eff);
    var s' := Perform(s, k, eff);
    forall a, b | 0 <= a < b < |s'.requests| && SameQueue(job, s'.requests[a], s'.requests[b])
      ensures Over(s', s'.requests[a])
    {
      if b < |s.requests| {
        assert Over(s, s.requests[a]);
      } else {
        assert s.requests[a] in s.requests;
        EarlierRequestsOver(job, s, k, s.requests[a]);
      }
    }
  }

  lemma {:induction false} MissedKept(job: Job, s: State, k: VolumeKey, eff: Effect)
    requires AtWork(job, s, k, eff) && Head(s, k) < |s.status|
    ensures MissedOne(job, Perform(s, k, eff))
  {
    HeadFacts(job, s, k, eff);
    var s', h := Perform(s, k, eff), Head(s, k);
    if eff.missed {
      assert Missed(job, s', h);
    } else if !s.phaseLanded {
      var i: nat :| i < |job.moves| && Missed(job, s, i);
      assert h in s.workers[k].todo;
      assert Missed(job, s', i);
    }
  }

  lemma {:induction false} PerformKeepsInv(job: Job, s: State, k: VolumeKey, eff: Effect)
    requires AtWork(job, s, k, eff)
    ensures Head(s, k) < |s.status| && Inv(job, Perform(s, k, eff))
  {
    HeadFacts(job, s, k, eff);
    var s' := Perform(s, k, eff);
    forall i: nat | i < |job.moves|
      ensures EntryOk(job, s', i)
    {
      if i == Head(s, k) {
        HeadKept(job, s, k, eff);
      } else {
        OtherKept(job, s, k, eff, i);
      }
    }
    forall k' | k' in s'.workers
      ensures WorkerOk(job, s', k')
    {
      WorkersKept(job, s, k, eff, k');
    }
    HistoryKept(job, s, k, eff);
    ExclusiveKept(job, s, k, eff);
    MissedKept(job, s, k, eff);
  }

  // ----- the phase barrier

  /** At the barrier every entry of the phase is finished; the phase counts as landed exactly when all
      of them landed, whatever became of recording them. */
  lemma {:induction false} AtBarrier(job: Job, s: State)
    requires Inv(job, s) && Enabled(job, s, NextPhase)
    ensures forall i: nat :: i < |job.moves| && job.moves[i].phase <= job.phases[s.at] ==> Terminal(s.status[i])
    ensures s.phaseLanded <==> forall i: nat :: i < |job.moves| && job.moves[i].phase <= job.phases[s.at] ==> i in s.landed
  {
    forall i: nat | i < |job.moves| && job.moves[i].phase <= job.phases[s.at]
      ensures Terminal(s.status[i]) && (s.phaseLanded ==> i in s.landed)
    {
      assert EntryOk(job, s, i);
    }
    if !s.phaseLanded {
      var i: nat :| i < |job.moves| && Missed(job, s, i);
      assert InQueue(job, job.phases[s.at], job.keys[i], i);
    }
  }

  lemma {:induction false} AdvanceKeepsInv(job: Job, s: State)
    requires Inv(job, s) && Enabled(job, s, NextPhase)
    ensures Inv(job, Advance(job, s))
  {
    AtBarrier(job, s);
    var s' := Advance(job, s);
    forall i: nat | i < |job.moves|
      ensures EntryOk(job, s', i)
    {
      assert EntryOk(job, s, i);
      if job.moves[i].phase > job.phases[s.at] {
        PhaseGap(job, i, s.at);
        if s.phaseLanded && job.moves[i].phase == job.phases[s'.at] {
          FreshWorkers(job, s', i);
        }
      }
    }
    if s.phaseLanded && s.at + 1 < |job.phases| {
      forall k | k in s'.workers
        ensures WorkerOk(job, s', k)
      {
        FreshWorkerOk(job, s', k);
      }
    } else {
      forall k | k in s'.workers
        ensures WorkerOk(job, s', k)
      {
        assert WorkerOk(job, s, k);
      }
      if !s.phaseLanded {
        var i: nat :| i < |job.moves| && Missed(job, s, i);
        assert Missed(job, s', i);
      }
    }
  }

  lemma {:induction false} InvSized(job: Job, s: State)
    requires Inv(job, s)
    ensures WellSized(job, s)
  {
    forall k | k in s.workers && s.workers[k].todo != []
      ensures s.workers[k].todo[0] < |job.moves|
    {
      assert WorkerOk(job, s, k);
      assert s.workers[k].todo[0] in s.workers[k].todo;
    }
  }

  lemma {:induction false} StepKeepsInv(job: Job, s: State, ev: Event)
    requires Inv(job, s) && Enabled(job, s, ev)
    ensures WellSized(job, s) && Inv(job, Step(job, s, ev))
  {
    InvSized(job, s);
    if ev.NextPhase? {
      AdvanceKeepsInv(job, s);
    } else {
      EffectLegal(job, s, ev);
      PerformKeepsInv(job, s, ev.key, EffectOf(ev, job.moves[Head(s, ev.key)]));
    }
  }
}
