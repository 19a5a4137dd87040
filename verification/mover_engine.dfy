/** Run as code: the fields the queues share, the statements each queue interleaves, and the loop that
    interleaves them (internal/mover). */
module MoverEngine {
  import opened DiskUsage
  import opened PlannerModel
  import opened Sorting
  import opened Mover
  import opened MoverProofs
  import opened MoverRuns
  import opened MoverFailures

  /** newRunProgress, and Run's grouping by phase: which queue each move joins, and the phases in order. */
  method NewJob(moves: seq<Move>, volumeOf: map<Path, nat>, serial: bool) returns (job: Job)
    ensures ValidJob(job) && job.moves == moves
    ensures forall i :: 0 <= i < |moves| ==> job.keys[i] == if serial then SerialQueue else KeyOf(moves[i].destination, volumeOf)
  {
    var keys: seq<VolumeKey> := [];
    var found: seq<int> := [];
    for i := 0 to |moves|
      invariant |keys| == i && forall k :: 0 <= k < i ==> keys[k] == if serial then SerialQueue else KeyOf(moves[k].destination, volumeOf)
      invariant NoRepeats(found) && forall k :: 0 <= k < i ==> moves[k].phase in found
      invariant i > 0 ==> found != []
    {
      keys := keys + [if serial then SerialQueue else KeyOf(moves[i].destination, volumeOf)];
      if moves[i].phase !in found {
        found := found + [moves[i].phase];
      }
    }
    var phases := SortSlice(found, (a: int, b: int) => a < b);
    SamePermutationMembers(phases, found);
    Ascending(found, phases);
    job := Job(moves, keys, phases);
  }

  lemma {:induction false} Ascending(found: seq<int>, phases: seq<int>)
    requires NoRepeats(found) && multiset(found) == multiset(phases)
    requires SortedBy(phases, (a: int, b: int) => a < b)
    ensures forall a, b :: 0 <= a < b < |phases| ==> phases[a] < phases[b]
  {
    PermutedNoRepeats(found, phases);
    forall a, b | 0 <= a < b < |phases|
      ensures phases[a] < phases[b]
    {
      assert !((x: int, y: int) => x < y)(phases[b], phases[a]);
    }
  }

  class RunProgress {
    const job: Job
    var status: seq<Status>
    var at: nat
    var workers: map<VolumeKey, Worker>
    var phaseLanded: bool
    var done: bool
    ghost var requests: seq<nat>
    ghost var rejected: set<nat>
    ghost var landed: set<nat>

    ghost function View(): State
      reads this
    {
      State(status, at, workers, phaseLanded, requests, rejected, landed, done)
    }

    constructor (job: Job)
      requires ValidJob(job)
      ensures this.job == job && View() == Start(job)
    {
      this.job := job;
      status, at := seq(|job.moves|, _ => Pending), 0;
      workers := if job.phases == [] then map[] else WorkersFor(job, job.phases[0]);
      phaseLanded, done := true, job.phases == [];
      requests, rejected, landed := [], {}, {};
    }

    /** The entry the queue has in hand gets a status, and the worker goes on to a stage. */
    method Mark(k: VolumeKey, st: Status, stage: Stage)
      requires Busy(View(), k) && Head(View(), k) < |status|
      modifies this`status, this`workers
      ensures View() == Perform(old(View()), k, Proceed(stage).(status := st))
    {
      var w := workers[k];
      status := status[w.todo[0] := st];
      workers := workers[k := w.(stage := stage)];
    }

    /** The queue is through with the entry in hand. */
    method Leave(k: VolumeKey, st: Status, stage: Stage, missed: bool)
      requires Busy(View(), k) && Head(View(), k) < |status|
      modifies this`status, this`workers, this`phaseLanded
      ensures View() == Perform(old(View()), k, Effect(st, true, stage, false, false, false, missed))
    {
      var w := workers[k];
      status := status[w.todo[0] := st];
      workers := workers[k := Worker(w.todo[1..], stage)];
      if missed {
        phaseLanded := false;
      }
    }

    method BeginMove(k: VolumeKey)
      requires Enabled(job, View(), Begin(k)) && WellSized(job, View())
      modifies this
      ensures View() == Step(job, old(View()), Begin(k))
    {
      Mark(k, Moving, Checking);
    }

    method CheckStorage(k: VolumeKey, ok: bool)
      requires Enabled(job, View(), Storage(k, ok)) && WellSized(job, View())
      modifies this
      ensures View() == Step(job, old(View()), Storage(k, ok))
    {
      if !ok {
        Leave(k, Failed, Idle, true);
      } else {
        Mark(k, Moving, Verifying);
      }
    }

    /** verifyRoom, on whatever the destination reads right now. */
    method VerifyRoom(k: VolumeKey, reading: Option<Usage>)
      requires Enabled(job, View(), Room(k, reading)) && WellSized(job, View())
      modifies this
      ensures View() == Step(job, old(View()), Room(k, reading))
      ensures var h, todo := old(Head(View(), k)), old(workers[k].todo);
              && requests == old(requests)
              && (if LacksRoom(reading, job.moves[h]) then status[h] == Failed && workers[k] == Worker(todo[1..], Idle) && !phaseLanded
                  else status[h] == Moving && workers[k] == Worker(todo, Requesting))
    {
      var m := job.moves[workers[k].todo[0]];
      RoomInNumbers(reading, m);
      var refused := false;
      if m.size > 0 {
        match reading {
          case None => refused := true;
          case Some(u) =>
            if m.size > u.free {
              refused := true;
            } else if m.ceiling > 0.0 {
              var projectedPercent := PercentUsed(u.used + m.size, u.free - m.size);
              refused := projectedPercent > m.ceiling;
            }
        }
      }
      if refused {
        Leave(k, Failed, Idle, true);
      } else {
        Mark(k, Moving, Requesting);
      }
    }

    /** The Move call: accepted, definitely refused, or with its answer lost. */
    method RequestMove(k: VolumeKey, answer: Answer)
      requires Enabled(job, View(), Answered(k, answer)) && WellSized(job, View())
      modifies this
      ensures View() == Step(job, old(View()), Answered(k, answer))
    {
      ghost var h := workers[k].todo[0];
      match answer {
        case Accepted =>
          Mark(k, Moving, Settling);
        case Refused =>
          Leave(k, Failed, Idle, true);
          rejected := rejected + {h};
        case Ambiguous =>
          Leave(k, Failed, Blocking, true);
      }
      requests := requests + [h];
    }

    method Settle(k: VolumeKey, confirmed: bool)
      requires Enabled(job, View(), Settled(k, confirmed)) && WellSized(job, View())
      modifies this
      ensures View() == Step(job, old(View()), Settled(k, confirmed))
    {
      ghost var h := workers[k].todo[0];
      if confirmed {
        Mark(k, Moving, Recording);
        landed := landed + {h};
      } else {
        Leave(k, Failed, Blocking, true);
      }
    }

    method Record(k: VolumeKey, ok: bool)
      requires Enabled(job, View(), Recorded(k, ok)) && WellSized(job, View())
      modifies this
      ensures View() == Step(job, old(View()), Recorded(k, ok))
    {
      if ok {
        Leave(k, Done, Idle, false);
      } else {
        Leave(k, Failed, Idle, false);
      }
    }

    /** An entry behind a stopped queue is given up unattempted. */
    method GiveUp(k: VolumeKey)
      requires Enabled(job, View(), Block(k)) && WellSized(job, View())
      modifies this
      ensures View() == Step(job, old(View()), Block(k))
    {
      Leave(k, Failed, Blocking, true);
    }

    /** Every queue of the phase has drained: the next phase, or the end. */
    method Barrier()
      requires Enabled(job, View(), NextPhase) && |status| == |job.moves|
      modifies this
      ensures View() == Step(job, old(View()), NextPhase)
    {
      if phaseLanded {
        if at + 1 == |job.phases| {
          done := true;
        } else {
          at := at + 1;
          workers := WorkersFor(job, job.phases[at]);
        }
      } else {
        GiveUpLater();
        done := true;
      }
    }

    /** Entries of later phases are given up, their prerequisite having failed. */
    method GiveUpLater()
      requires at < |job.phases| && |status| == |job.moves|
      modifies this`status
      ensures status == GivenUp(job, old(status), at)
    {
      for i := 0 to |status|
        invariant |status| == |old(status)|
        invariant forall j :: 0 <= j < |status| ==>
                    status[j] == if j < i && job.moves[j].phase > job.phases[at] then Failed else old(status)[j]
      {
        if job.moves[i].phase > job.phases[at] {
          status := status[i := Failed];
        }
      }
    }

    /** One step of some queue, or of the barrier, with whatever the environment answers. */
    method AnyStep() returns (ghost ev: Event)
      requires Inv(job, View()) && !done
      modifies this
      ensures Enabled(job, old(View()), ev) && WellSized(job, old(View())) && View() == Step(job, old(View()), ev)
    {
      InvSized(job, View());
      if forall k :: k in workers ==> workers[k].todo == [] {
        ev := NextPhase;
        Barrier();
        return;
      }
      var k :| k in workers && workers[k].todo != [];
      var yes: bool := *;
      match workers[k].stage {
        case Idle => ev := Begin(k); BeginMove(k);
        case Checking => ev := Storage(k, yes); CheckStorage(k, yes);
        case Verifying =>
          var reading: Option<Usage> := *;
          ev := Room(k, reading);
          VerifyRoom(k, reading);
        case Requesting =>
          var answer: Answer := *;
          ev := Answered(k, answer);
          RequestMove(k, answer);
        case Settling => ev := Settled(k, yes); Settle(k, yes);
        case Recording => ev := Recorded(k, yes); Record(k, yes);
        case Blocking => ev := Block(k); GiveUp(k);
      }
    }

    /** The run: whatever the interleaving and the answers, it comes to an end, and then nothing is left
        pending or moving. */
    method Run() returns (ghost events: seq<Event>)
      requires ValidJob(job) && View() == Start(job)
      modifies this
      ensures done && Inv(job, View()) && forall i :: 0 <= i < |status| ==> Terminal(status[i])
      ensures Reached(job, Start(job), events) == Some(View())
    {
      InvStart(job);
      events := [];
      while !done
        invariant Inv(job, View())
        invariant Reached(job, Start(job), events) == Some(View())
        decreases StepsLeft(job, View())
      {
        ghost var before := View();
        ghost var ev := AnyStep();
        StepKeepsInv(job, before, ev);
        StepsDecrease(job, before, ev);
        ReachedMore(job, Start(job), events, ev);
        events := events + [ev];
      }
      forall i: nat | i < |status|
        ensures Terminal(status[i])
      {
        DoneIsFinished(job, View(), i);
      }
    }
  }

  lemma {:induction false} ReachedMore(job: Job, s: State, events: seq<Event>, ev: Event)
    requires Reached(job, s, events).Some?
    requires var t := Reached(job, s, events).value; Enabled(job, t, ev) && WellSized(job, t)
    ensures Reached(job, s, events + [ev]) == Some(Step(job, Reached(job, s, events).value, ev))
    decreases |events|
  {
    if events == [] {
      assert [] + [ev] == [ev];
      assert Reached(job, Step(job, s, ev), [ev][1..]) == Some(Step(job, s, ev));
    } else {
      assert (events + [ev])[0] == events[0] && (events + [ev])[1..] == events[1..] + [ev];
      ReachedMore(job, Step(job, s, events[0]), events[1..], ev);
    }
  }
}
