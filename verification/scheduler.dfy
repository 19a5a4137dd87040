/** When scheduled tasks run, and what restarts and edits leave alone (internal/scheduler, internal/webui). */
module Scheduler {
  import opened PlannerModel
  import opened DiskUsage

  const HOUR := 60 * 60
  const DAY := 24 * HOUR

  datatype Unit = Daily | Hourly

  /** at is the time of day a daily schedule runs at, in seconds; 0 where the setting does not parse. */
  datatype Schedule = Schedule(enabled: bool, unit: Unit, every: int, at: nat)

  /** The calendar day of an instant, in seconds of local time. */
  function DayOf(t: nat): nat {
    t / DAY
  }

  function Every(s: Schedule): nat {
    if s.every < 1 then 1 else s.every
  }

  /** Today's slot. */
  function DaySlot(s: Schedule, now: nat): nat {
    DayOf(now) * DAY + s.at
  }

  predicate Due(s: Schedule, lastRun: Option<nat>, now: nat) {
    s.enabled &&
    match s.unit
    case Hourly => lastRun.None? || now >= lastRun.value + Every(s) * HOUR
    case Daily => now >= DaySlot(s, now) && (lastRun.None? || DayOf(now) >= DayOf(lastRun.value) + Every(s))
  }

  /** The anchor after arming at now, without a run. */
  function Arm(s: Schedule, anchor: Option<nat>, now: nat): Option<nat> {
    if !Due(s, anchor, now) then anchor
    else if s.unit != Daily then Some(now)
    else Some(DaySlot(s, now))
  }

  predicate ValidSchedule(s: Schedule) {
    s.at < DAY
  }

  lemma {:induction false} SlotIsToday(s: Schedule, now: nat)
    requires ValidSchedule(s)
    ensures DayOf(DaySlot(s, now)) == DayOf(now)
  {
  }

  /** Arming never leaves a task due on the spot, leaves one that is not due alone, and once is enough. */
  lemma {:induction false} ArmNeverFires(s: Schedule, anchor: Option<nat>, now: nat)
    requires ValidSchedule(s)
    ensures !Due(s, Arm(s, anchor, now), now)
    ensures !Due(s, anchor, now) ==> Arm(s, anchor, now) == anchor
    ensures Arm(s, Arm(s, anchor, now), now) == Arm(s, anchor, now)
  {
    SlotIsToday(s, now);
  }

  /** A slot that was missed is skipped: after arming a task that would have fired, it fires next exactly
      when it would have, had it run on the spot. */
  lemma {:induction false} ArmSkipsToNext(s: Schedule, anchor: Option<nat>, now: nat, t: nat)
    requires ValidSchedule(s) && Due(s, anchor, now) && t >= now
    ensures Due(s, Arm(s, anchor, now), t) <==> Due(s, Some(now), t)
  {
    SlotIsToday(s, now);
  }

  /** A restart or save whenever a task is not due changes nothing about when it next fires. */
  lemma {:induction false} ArmKeepsPlace(s: Schedule, anchor: Option<nat>, now: nat, t: nat)
    requires !Due(s, anchor, now)
    ensures Due(s, Arm(s, anchor, now), t) <==> Due(s, anchor, t)
  {
  }

  // ----- spacing

  /** A run at t comes a full period after one at earlier: that many calendar days and at or after the clock
      time, or that many hours. */
  predicate Spaced(s: Schedule, earlier: nat, t: nat) {
    match s.unit
    case Hourly => t >= earlier + Every(s) * HOUR
    case Daily => DayOf(t) >= DayOf(earlier) + Every(s) && t >= DaySlot(s, t)
  }

  lemma {:induction false} DueIsSpaced(s: Schedule, anchor: nat, earlier: nat, t: nat)
    requires Due(s, Some(anchor), t) && earlier <= anchor
    ensures Spaced(s, earlier, t)
  {
    DayMonotone(earlier, anchor);
  }

  lemma {:induction false} DayMonotone(a: nat, b: nat)
    requires a <= b
    ensures DayOf(a) <= DayOf(b)
  {
  }

  lemma {:induction false} ArmMovesForward(s: Schedule, anchor: nat, now: nat)
    requires ValidSchedule(s)
    ensures Arm(s, Some(anchor), now).Some? && Arm(s, Some(anchor), now).value >= anchor
  {
    if Due(s, Some(anchor), now) && s.unit == Daily {
      SlotIsToday(s, now);
      if DaySlot(s, now) < anchor {
        DayMonotone(DaySlot(s, now), anchor);
      }
    }
  }

  // ----- the server's scheduler state

  datatype Task = ScanCutoffs | RunPlan | RescanCold | RefreshLinks | ScanOrphans | ScanTrackers | ExpireSeeds | RunTorrentPlan

  /** The order a tick considers the tasks in. */
  const TASKS: seq<Task> := [ScanCutoffs, RunPlan, RescanCold, RefreshLinks, ScanOrphans, ScanTrackers, ExpireSeeds, RunTorrentPlan]

  datatype TaskRunState = TaskRunState(anchor: Option<nat>, lastRan: Option<nat>)

  /** A recorded run: scheduled ones with the schedule they fired under, manual ones without. */
  datatype Run = Run(task: Task, time: nat, schedule: Option<Schedule>)

  /** Weekdays are numbered from Sunday; day 0 was a Thursday. */
  function Weekday(t: nat): nat {
    (DayOf(t) + 4) % 7
  }

  /** No run of the task is recorded after the anchor. */
  ghost predicate Anchors(runs: seq<Run>, task: Task, anchor: Option<nat>) {
    forall i :: 0 <= i < |runs| && runs[i].task == task ==> anchor.Some? && runs[i].time <= anchor.value
  }

  /** When the task last ran, by hand or on schedule. */
  ghost function LastRunOf(runs: seq<Run>, task: Task): Option<nat> {
    if runs == [] then None
    else if runs[|runs| - 1].task == task then Some(runs[|runs| - 1].time)
    else LastRunOf(runs[..|runs| - 1], task)
  }

  /** Every scheduled run comes a full period after each earlier run of its task, whatever happened between. */
  ghost predicate RunsSpaced(runs: seq<Run>) {
    forall i, j :: 0 <= i < j < |runs| && runs[i].task == runs[j].task && runs[j].schedule.Some? ==> Spaced(runs[j].schedule.value, runs[i].time, runs[j].time)
  }

  ghost predicate Past(runs: seq<Run>, clock: nat) {
    forall i :: 0 <= i < |runs| ==> runs[i].time <= clock
  }

  function StateIn(state: map<Task, TaskRunState>, task: Task): TaskRunState {
    if task in state then state[task] else TaskRunState(None, None)
  }

  /** The persisted state goes with the runs there have been. */
  ghost predicate Tracks(state: map<Task, TaskRunState>, runs: seq<Run>) {
    forall t: Task :: Anchors(runs, t, StateIn(state, t).anchor) && StateIn(state, t).lastRan == LastRunOf(runs, t)
  }

  lemma {:induction false} OneMoreRun(runs: seq<Run>, anchor: Option<nat>, run: Run)
    requires RunsSpaced(runs) && Anchors(runs, run.task, anchor)
    requires run.schedule.Some? ==> Due(run.schedule.value, anchor, run.time)
    ensures RunsSpaced(runs + [run])
  {
    var next := runs + [run];
    forall i | 0 <= i < |runs| && runs[i].task == run.task && run.schedule.Some?
      ensures Spaced(run.schedule.value, runs[i].time, run.time)
    {
      DueIsSpaced(run.schedule.value, anchor.value, runs[i].time, run.time);
    }
  }

  lemma {:induction false} TracksAfterRun(state: map<Task, TaskRunState>, runs: seq<Run>, run: Run)
    requires Tracks(state, runs) && Past(runs, run.time)
    ensures Tracks(state[run.task := TaskRunState(Some(run.time), Some(run.time))], runs + [run])
  {
    var next := runs + [run];
    assert next[..|next| - 1] == runs;
    forall t: Task
      ensures LastRunOf(next, t) == if t == run.task then Some(run.time) else LastRunOf(runs, t)
      ensures t != run.task && Anchors(runs, t, StateIn(state, t).anchor) ==> Anchors(next, t, StateIn(state, t).anchor)
    {
    }
  }

  lemma {:induction false} TracksAfterArm(state: map<Task, TaskRunState>, runs: seq<Run>, task: Task, s: Schedule, now: nat)
    requires Tracks(state, runs) && ValidSchedule(s)
    ensures Tracks(state[task := TaskRunState(Arm(s, StateIn(state, task).anchor, now), StateIn(state, task).lastRan)], runs)
  {
    var st := StateIn(state, task);
    var armed := Arm(s, st.anchor, now);
    var next := state[task := TaskRunState(armed, st.lastRan)];
    assert Anchors(runs, task, st.anchor) && st.lastRan == LastRunOf(runs, task);
    if st.anchor.Some? {
      ArmMovesForward(s, st.anchor.value, now);
    }
    forall t: Task
      ensures Anchors(runs, t, StateIn(next, t).anchor) && StateIn(next, t).lastRan == LastRunOf(runs, t)
    {
      if t != task {
        assert StateIn(next, t) == StateIn(state, t);
      }
    }
  }

  // ----- whole histories

  /** What can happen to a task: a tick fires it, it runs by hand (or as part of another task), a start-up
      arms it, or its schedule is saved. */
  datatype Change = Fired(task: Task, now: nat) | ByHand(task: Task, now: nat) | Armed(task: Task, now: nat) | Saved(task: Task, schedule: Schedule, now: nat)

  datatype World = World(schedules: map<Task, Schedule>, state: map<Task, TaskRunState>, runs: seq<Run>, clock: nat)

  predicate Possible(w: World, c: Change) {
    && c.now >= w.clock && c.task in w.schedules
    && (c.Fired? ==> Due(w.schedules[c.task], StateIn(w.state, c.task).anchor, c.now))
    && (c.Saved? ==> ValidSchedule(c.schedule))
  }

  function ArmedState(state: map<Task, TaskRunState>, task: Task, s: Schedule, now: nat): map<Task, TaskRunState> {
    state[task := TaskRunState(Arm(s, StateIn(state, task).anchor, now), StateIn(state, task).lastRan)]
  }

  function WorldAfter(w: World, c: Change): World
    requires Possible(w, c)
  {
    match c
    case Fired(task, now) => Recorded(w, Run(task, now, Some(w.schedules[task])))
    case ByHand(task, now) => Recorded(w, Run(task, now, None))
    case Armed(task, now) => w.(state := ArmedState(w.state, task, w.schedules[task], now), clock := now)
    case Saved(task, schedule, now) => w.(schedules := w.schedules[task := schedule], state := ArmedState(w.state, task, schedule, now), clock := now)
  }

  function Recorded(w: World, run: Run): World {
    w.(state := w.state[run.task := TaskRunState(Some(run.time), Some(run.time))], runs := w.runs + [run], clock := run.time)
  }

  ghost predicate Sane(w: World) {
    && RunsSpaced(w.runs) && Tracks(w.state, w.runs) && Past(w.runs, w.clock)
    && forall t :: t in w.schedules ==> ValidSchedule(w.schedules[t])
  }

  lemma {:induction false} StaysSane(w: World, c: Change)
    requires Sane(w) && Possible(w, c)
    ensures Sane(WorldAfter(w, c))
  {
    match c
    case Fired(task, now) => RecordedSane(w, Run(task, now, Some(w.schedules[task])));
    case ByHand(task, now) => RecordedSane(w, Run(task, now, None));
    case Armed(task, now) => TracksAfterArm(w.state, w.runs, task, w.schedules[task], now);
    case Saved(task, schedule, now) => TracksAfterArm(w.state, w.runs, task, schedule, now);
  }

  lemma {:induction false} RecordedSane(w: World, run: Run)
    requires Sane(w) && run.time >= w.clock
    requires run.schedule.Some? ==> Due(run.schedule.value, StateIn(w.state, run.task).anchor, run.time)
    ensures Sane(Recorded(w, run))
  {
    assert Anchors(w.runs, run.task, StateIn(w.state, run.task).anchor);
    OneMoreRun(w.runs, StateIn(w.state, run.task).anchor, run);
    TracksAfterRun(w.state, w.runs, run);
  }

  /** The world after those changes, if each was possible when it happened. */
  function WorldAfterAll(w: World, changes: seq<Change>): Option<World>
    decreases |changes|
  {
    if changes == [] then Some(w)
    else if Possible(w, changes[0]) then WorldAfterAll(WorldAfter(w, changes[0]), changes[1..])
    else None
  }

  /** Under any sequence of ticks, runs by hand, restarts and saves, every scheduled run comes a full period
      - of the schedule it fired under - after every earlier run of its task. */
  lemma {:induction false} EveryHistorySpaced(w: World, changes: seq<Change>)
    requires Sane(w) && WorldAfterAll(w, changes).Some?
    ensures Sane(WorldAfterAll(w, changes).value) && RunsSpaced(WorldAfterAll(w, changes).value.runs)
    decreases |changes|
  {
    if changes != [] {
      StaysSane(w, changes[0]);
      EveryHistorySpaced(WorldAfter(w, changes[0]), changes[1..]);
    }
  }

  /** Arming a task, at a restart or a save, makes it fire no sooner than it would have. */
  lemma {:induction false} ArmingNeverHastens(w: World, task: Task, now: nat, t: nat)
    requires Sane(w) && Possible(w, Armed(task, now)) && t >= now
    requires Due(w.schedules[task], StateIn(WorldAfter(w, Armed(task, now)).state, task).anchor, t)
    ensures Due(w.schedules[task], StateIn(w.state, task).anchor, t)
  {
    var s, anchor := w.schedules[task], StateIn(w.state, task).anchor;
    if anchor.Some? {
      ArmMovesForward(s, anchor.value, now);
      DayMonotone(anchor.value, Arm(s, anchor, now).value);
    }
  }

  /** After a tick, a task that was due and not busy has run just now; the others are as they were. */
  function Ticked(s: Schedule, st: TaskRunState, now: nat, busy: bool): TaskRunState {
    if Due(s, st.anchor, now) && !busy then TaskRunState(Some(now), Some(now)) else st
  }

  /** What a tick adds to the runs: due tasks that were not busy, under the schedules they went by. */
  ghost predicate NewRuns(before: seq<Run>, runs: seq<Run>, schedules: map<Task, Schedule>, now: nat, busy: set<Task>) {
    && |before| <= |runs| && runs[..|before|] == before
    && forall i :: |before| <= i < |runs| ==> runs[i].task in schedules && runs[i] == Run(runs[i].task, now, Some(schedules[runs[i].task])) && runs[i].task !in busy
  }

  lemma {:induction false} MoreNewRuns(before: seq<Run>, runs: seq<Run>, next: seq<Run>, schedules: map<Task, Schedule>, now: nat, busy: set<Task>, t: Task)
    requires NewRuns(before, runs, schedules, now, busy) && t in schedules
    requires next == runs || (next == runs + [Run(t, now, Some(schedules[t]))] && t !in busy)
    ensures NewRuns(before, next, schedules, now, busy)
  {
    assert next[..|before|] == runs[..|before|];
  }

  /** Every other task's state is what it was. */
  ghost predicate OtherTasksKept(before: map<Task, TaskRunState>, state: map<Task, TaskRunState>, task: Task) {
    forall t: Task :: t != task ==> StateIn(state, t) == StateIn(before, t)
  }

  /** After a tick has got through the first i tasks. */
  ghost predicate TickedSofar(tasks: seq<Task>, i: nat, schedules: map<Task, Schedule>, before: map<Task, TaskRunState>, state: map<Task, TaskRunState>, now: nat, busy: set<Task>)
    requires i <= |tasks|
  {
    && (forall j :: 0 <= j < i && tasks[j] in schedules ==> StateIn(state, tasks[j]) == Ticked(schedules[tasks[j]], StateIn(before, tasks[j]), now, tasks[j] in busy))
    && forall j :: i <= j < |tasks| ==> StateIn(state, tasks[j]) == StateIn(before, tasks[j])
  }

  lemma {:induction false} TickedOneMore(tasks: seq<Task>, i: nat, schedules: map<Task, Schedule>, before: map<Task, TaskRunState>, state: map<Task, TaskRunState>,
                                         next: map<Task, TaskRunState>, now: nat, busy: set<Task>)
    requires i < |tasks| && NoRepeats(tasks) && tasks[i] in schedules && TickedSofar(tasks, i, schedules, before, state, now, busy)
    requires StateIn(next, tasks[i]) == Ticked(schedules[tasks[i]], StateIn(state, tasks[i]), now, tasks[i] in busy)
    requires OtherTasksKept(state, next, tasks[i])
    ensures TickedSofar(tasks, i + 1, schedules, before, next, now, busy)
  {
  }

  class Server {
    const tasks: seq<Task>
    var schedules: map<Task, Schedule>
    var omitDays: set<nat>
    var state: map<Task, TaskRunState>
    ghost var runs: seq<Run>
    ghost var clock: nat

    function StateOf(task: Task): TaskRunState
      reads this
    {
      StateIn(state, task)
    }

    ghost predicate Known()
      reads this
    {
      NoRepeats(tasks) && forall t: Task :: t in tasks && t in schedules && ValidSchedule(schedules[t])
    }

    ghost predicate Valid()
      reads this
    {
      Known() && RunsSpaced(runs) && Tracks(state, runs) && Past(runs, clock)
    }

    constructor (schedules: map<Task, Schedule>, omitDays: set<nat>)
      requires forall t: Task :: t in schedules && ValidSchedule(schedules[t])
      ensures Valid() && runs == [] && clock == 0 && tasks == TASKS
    {
      tasks, this.schedules, this.omitDays, state := TASKS, schedules, omitDays, map[];
      runs, clock := [], 0;
      forall t: Task
        ensures t in TASKS
      {
        AllTasks(t);
      }
    }

    /** Re-arms one task's anchor without a run. */
    method ArmTask(task: Task, now: nat)
      requires Valid() && now >= clock
      modifies `state, `clock
      ensures Valid() && clock == now
      ensures StateOf(task) == TaskRunState(Arm(schedules[task], old(StateOf(task)).anchor, now), old(StateOf(task)).lastRan)
      ensures OtherTasksKept(old(state), state, task)
    {
      var st := StateOf(task);
      var armed := Arm(schedules[task], st.anchor, now);
      clock := now;
      if armed == st.anchor {
        return;
      }
      TracksAfterArm(state, runs, task, schedules[task], now);
      state := state[task := TaskRunState(armed, st.lastRan)];
    }

    /** Records a run, scheduled or by hand. */
    method RecordTaskRan(task: Task, now: nat, ghost schedule: Option<Schedule>)
      requires Valid() && now >= clock
      requires schedule.Some? ==> Due(schedule.value, StateOf(task).anchor, now)
      modifies `state, `clock, `runs
      ensures Valid() && clock == now && runs == old(runs) + [Run(task, now, schedule)]
      ensures StateOf(task) == TaskRunState(Some(now), Some(now))
      ensures OtherTasksKept(old(state), state, task)
    {
      ghost var run := Run(task, now, schedule);
      OneMoreRun(runs, StateOf(task).anchor, run);
      TracksAfterRun(state, runs, run);
      state := state[task := TaskRunState(Some(now), Some(now))];
      runs := runs + [run];
      clock := now;
    }

    /** Start-up: every task is armed, so none is due at that moment. */
    method ArmSchedules(now: nat)
      requires Valid() && now >= clock
      modifies `state, `clock
      ensures Valid() && clock == now
      ensures forall t: Task :: StateOf(t).anchor == Arm(schedules[t], old(StateOf(t)).anchor, now)
    {
      clock := now;
      for i := 0 to |tasks|
        invariant Valid() && clock == now
        invariant forall j :: 0 <= j < i ==> StateOf(tasks[j]).anchor == Arm(schedules[tasks[j]], old(StateOf(tasks[j])).anchor, now)
        invariant forall j :: i <= j < |tasks| ==> StateOf(tasks[j]) == old(StateOf(tasks[j]))
      {
        ArmTask(tasks[i], now);
      }
    }

    /** Saving a task's schedule arms it. */
    method UpdateScheduleConfig(task: Task, schedule: Schedule, now: nat)
      requires Valid() && now >= clock && ValidSchedule(schedule)
      modifies `schedules, `state, `clock
      ensures Valid() && clock == now && schedules == old(schedules)[task := schedule]
      ensures StateOf(task).anchor == Arm(schedule, old(StateOf(task)).anchor, now)
      ensures OtherTasksKept(old(state), state, task)
    {
      schedules := schedules[task := schedule];
      ArmTask(task, now);
    }

    /** One tick: on a day that is not omitted, every due task runs and is recorded, except those that are
        busy, which are left for the next tick. */
    method Tick(now: nat, busy: set<Task>)
      requires Valid() && now >= clock
      modifies `state, `clock, `runs
      ensures Valid() && clock == now
      ensures Weekday(now) in omitDays ==> runs == old(runs) && state == old(state)
      ensures Weekday(now) !in omitDays ==> forall t: Task :: StateOf(t) == Ticked(schedules[t], old(StateOf(t)), now, t in busy)
      ensures NewRuns(old(runs), runs, schedules, now, busy)
    {
      clock := now;
      if Weekday(now) in omitDays {
        return;
      }
      for i := 0 to |tasks|
        invariant Valid() && clock == now
        invariant TickedSofar(tasks, i, schedules, old(state), state, now, busy)
        invariant NewRuns(old(runs), runs, schedules, now, busy)
      {
        ghost var before, was := runs, state;
        TickTask(tasks[i], now, busy);
        TickedOneMore(tasks, i, schedules, old(state), was, state, now, busy);
        MoreNewRuns(old(runs), before, runs, schedules, now, busy, tasks[i]);
      }
    }

    method TickTask(t: Task, now: nat, busy: set<Task>)
      requires Valid() && now >= clock
      modifies `state, `clock, `runs
      ensures Valid() && clock == now && StateOf(t) == Ticked(schedules[t], old(StateOf(t)), now, t in busy)
      ensures OtherTasksKept(old(state), state, t)
      ensures runs == old(runs) || (runs == old(runs) + [Run(t, now, Some(schedules[t]))] && t !in busy)
    {
      clock := now;
      if Due(schedules[t], StateOf(t).anchor, now) && t !in busy {
        RecordTaskRan(t, now, Some(schedules[t]));
      }
    }
  }

  lemma {:induction false} AllTasks(t: Task)
    ensures t in TASKS && NoRepeats(TASKS)
  {
    assert TASKS[0] == ScanCutoffs && TASKS[1] == RunPlan && TASKS[2] == RescanCold && TASKS[3] == RefreshLinks;
    assert TASKS[4] == ScanOrphans && TASKS[5] == ScanTrackers && TASKS[6] == ExpireSeeds && TASKS[7] == RunTorrentPlan;
  }
}
