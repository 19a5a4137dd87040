/** When tasks do run (internal/scheduler): the times themselves, beside what keeps them apart. */
module ScheduleTimes {
  import opened PlannerModel
  import opened Scheduler

  /** The period in whole units; fewer than one counts as one. */
  function Units(s: Schedule): nat {
    if s.every >= 1 then s.every else 1
  }

  /** When the task is due first after an anchor: so many hours later, or so many days later at its time of day. */
  function FirstDue(s: Schedule, anchor: nat): nat {
    match s.unit
    case Hourly => anchor + Units(s) * 3600
    case Daily => (anchor / 86_400 + Units(s)) * 86_400 + s.at
  }

  lemma {:induction false} DayStart(t: nat, d: nat)
    ensures t >= d * 86_400 <==> t / 86_400 >= d
  {
  }

  /** A task that is switched off is never due, and one that is on is due first at that time; from then on an hourly
      one is always due, and a daily one every day from its time of day on. */
  lemma {:induction false} DueExactly(s: Schedule, anchor: nat, t: nat)
    requires ValidSchedule(s)
    ensures !s.enabled ==> !Due(s, Some(anchor), t) && !Due(s, None, t)
    ensures s.enabled && t < FirstDue(s, anchor) ==> !Due(s, Some(anchor), t)
    ensures s.enabled && t >= FirstDue(s, anchor) ==> (Due(s, Some(anchor), t) <==> s.unit == Hourly || t % 86_400 >= s.at)
    ensures s.enabled ==> (Due(s, None, t) <==> s.unit == Hourly || t % 86_400 >= s.at)
  {
    assert t == t / 86_400 * 86_400 + t % 86_400;
    if s.unit == Daily {
      var d := anchor / 86_400 + Units(s);
      DayStart(t, d);
      SlotPassed(s, t);
      if t / 86_400 > d {
        DayStart(t, d + 1);
      }
    }
  }

  lemma {:induction false} SlotPassed(s: Schedule, t: nat)
    ensures t >= DaySlot(s, t) <==> t % 86_400 >= s.at
  {
    assert t == t / 86_400 * 86_400 + t % 86_400;
  }

  lemma {:induction false} FirstIsDue(s: Schedule, anchor: nat)
    requires ValidSchedule(s) && s.enabled
    ensures FirstDue(s, anchor) > anchor - anchor % 86_400 && Due(s, Some(anchor), FirstDue(s, anchor))
  {
    var t := FirstDue(s, anchor);
    if s.unit == Daily {
      TimeOfSlot(anchor / 86_400 + Units(s), s.at);
    }
    DueExactly(s, anchor, t);
  }

  lemma {:induction false} TimeOfSlot(day: nat, at: nat)
    requires at < 86_400
    ensures (day * 86_400 + at) % 86_400 == at && (day * 86_400 + at) / 86_400 == day
  {
  }

  // ----- tick after tick

  /** The task's state after ticks that find it idle, on days that are not omitted. */
  function AfterTicks(s: Schedule, st: TaskRunState, ticks: seq<nat>): TaskRunState {
    if ticks == [] then st else Ticked(s, AfterTicks(s, st, ticks[..|ticks| - 1]), ticks[|ticks| - 1], false)
  }

  /** A tick at t is one the schedule has been waiting for. */
  predicate OnTime(s: Schedule, anchor: nat, t: nat) {
    s.enabled && t >= FirstDue(s, anchor) && (s.unit == Hourly || t % 86_400 >= s.at)
  }

  /** Until the first tick that is on time nothing happens, and at that one the task runs. */
  lemma {:induction false} RunsAtFirstOnTime(s: Schedule, st: TaskRunState, ticks: seq<nat>, n: nat)
    requires ValidSchedule(s) && st.anchor.Some? && n <= |ticks| && forall i :: 0 <= i < n ==> !OnTime(s, st.anchor.value, ticks[i])
    ensures AfterTicks(s, st, ticks[..n]) == st
    ensures n < |ticks| && OnTime(s, st.anchor.value, ticks[n]) ==> AfterTicks(s, st, ticks[..n + 1]) == TaskRunState(Some(ticks[n]), Some(ticks[n]))
    decreases n
  {
    if n > 0 {
      RunsAtFirstOnTime(s, st, ticks, n - 1);
      assert ticks[..n][..n - 1] == ticks[..n - 1];
      DueExactly(s, st.anchor.value, ticks[n - 1]);
    } else {
      assert ticks[..0] == [];
    }
    if n < |ticks| {
      assert ticks[..n + 1][..n] == ticks[..n];
      DueExactly(s, st.anchor.value, ticks[n]);
    }
  }

  /** A task that is switched off, or found busy, is left as it is. */
  lemma {:induction false} LeftAlone(s: Schedule, st: TaskRunState, now: nat, busy: bool)
    requires ValidSchedule(s) && (!s.enabled || busy)
    ensures Ticked(s, st, now, busy) == st
  {
    DueExactly(s, if st.anchor.Some? then st.anchor.value else 0, now);
  }

  /** A daily schedule ticked once a day at its time keeps to it: it runs every so many days, and on no other. */
  lemma {:induction false} EverySoManyDays(s: Schedule, st: TaskRunState, day: nat, days: nat)
    requires ValidSchedule(s) && s.enabled && s.unit == Daily && st.anchor == Some(day * 86_400 + s.at)
    ensures var t := (day + days) * 86_400 + s.at;
            Due(s, st.anchor, t) <==> days >= Units(s)
  {
    TimeOfSlot(day, s.at);
    TimeOfSlot(day + days, s.at);
    DueExactly(s, st.anchor.value, (day + days) * 86_400 + s.at);
  }

  /** Weekdays go round: the first day was a Thursday, each is followed by the next, and Sunday comes after Saturday. */
  lemma {:induction false} WeekdayTurns(t: nat)
    ensures Weekday(t) < 7 && (t < 86_400 ==> Weekday(t) == 4)
    ensures Weekday(t + 86_400) == if Weekday(t) == 6 then 0 else Weekday(t) + 1
  {
    assert (t + 86_400) / 86_400 == t / 86_400 + 1;
  }
}
