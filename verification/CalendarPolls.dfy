/**
 Polling daily and weekly schedules: how far apart their occurrences lie, and that polls within the
 grace window lose none of them.
 */
module CalendarPolls {
  import opened Wrappers
  import opened MachineInts
  import opened TimeZones
  import opened Schedule
  import opened Polling
  import opened Scheduler

  /** Within a day the zone's clock is set forward by at most `change` in all. */
  ghost predicate SpringsBy(z: Zone, change: nat) {
    forall t: int, u: int | t < u < t + 86_400_000 :: LocalAt(z, u) - LocalAt(z, t) <= u - t + change
  }

  lemma InOrder(z: Zone, i: int, j: int)
    requires WellFormed(z)
    ensures 0 <= i <= j < |z.transitions| ==> z.transitions[i].at <= z.transitions[j].at
  {
  }

  /** A zone whose changes are at least a day apart and never add more than `change`. */
  lemma TableSprings(z: Zone, change: nat)
    requires WellFormed(z)
    requires forall i | 0 < i < |z.transitions| :: z.transitions[i].at - z.transitions[i - 1].at >= 86_400_000
    requires forall i | 0 < i <= |z.transitions| :: OffsetOf(z, i) - OffsetOf(z, i - 1) <= change
    ensures SpringsBy(z, change)
  {
    forall t: int, u: int | t < u < t + 86_400_000
      ensures LocalAt(z, u) - LocalAt(z, t) <= u - t + change
    {
      SpanFromFinds(z, t, 0);
      SpanFromFinds(z, u, 0);
      InOrder(z, SpanFrom(z, t, 0), SpanFrom(z, u, 0) - 2);
      InOrder(z, SpanFrom(z, u, 0), SpanFrom(z, t, 0) - 1);
    }
  }

  /** A later firing is on a later day. */
  lemma LaterDay(z: Zone, weekday: Option<nat>, timeOfDay: int, d: int, e: int, t: int, u: int)
    requires WellFormed(z) && Settled(z) && t < u
    requires FiresOn(z, weekday, timeOfDay, d, t) && FiresOn(z, weekday, timeOfDay, e, u)
    ensures d < e
  {
    if e <= d {
      var t0 := RepeatedReading(z, t, u);
    }
  }

  lemma DailyApart(z: Zone, timeOfDay: int, change: nat, t: int, u: int)
    requires WellFormed(z) && Settled(z) && SpringsBy(z, change) && t < u
    requires FiresLocally(z, None, timeOfDay, t) && FiresLocally(z, None, timeOfDay, u)
    ensures u - t >= 86_400_000 - change
  {
    var d :| FiresOn(z, None, timeOfDay, d, t);
    var e :| FiresOn(z, None, timeOfDay, e, u);
    LaterDay(z, None, timeOfDay, d, e, t, u);
  }

  /** Offsets are shorter than a day, so firings a week apart on the clock are five days apart. */
  lemma WeeklyApart(z: Zone, weekday: nat, timeOfDay: int, t: int, u: int)
    requires WellFormed(z) && Settled(z) && t < u
    requires FiresLocally(z, Some(weekday), timeOfDay, t) && FiresLocally(z, Some(weekday), timeOfDay, u)
    ensures u - t >= 432_000_000
  {
    var d :| FiresOn(z, Some(weekday), timeOfDay, d, t);
    var e :| FiresOn(z, Some(weekday), timeOfDay, e, u);
    LaterDay(z, Some(weekday), timeOfDay, d, e, t, u);
    assert e - d >= 7;
  }

  /** The occurrences of a daily or weekly schedule lie at least `gap` apart. */
  ghost predicate FiresApart(env: Environment, s: RoutineSchedule, gap: nat) {
    match s
    case DailyLocal(timezone, _, _) =>
      timezone in env.zones && gap <= 86_400_000 && SpringsBy(env.zones[timezone], 86_400_000 - gap)
    case WeeklyLocal(timezone, _, _, _) => timezone in env.zones && gap <= 432_000_000
    case _ => false
  }

  lemma CalendarIsSpaced(env: Environment, s: RoutineSchedule, gap: nat)
    requires Sound(env) && FiresApart(env, s, gap)
    ensures Spaced(Firings(env, s), gap)
  {
    hide SpringsBy, FiresLocally, WellFormed, Settled;
    forall t: i64, u: i64 | t < u && Firings(env, s)(t) && Firings(env, s)(u)
      ensures u - t >= gap
    {
      match s
      case DailyLocal(timezone, hour, minute) =>
        DailyApart(env.zones[timezone], TimeOfDay(hour, minute), 86_400_000 - gap, t, u);
      case WeeklyLocal(timezone, weekday, hour, minute) =>
        WeeklyApart(env.zones[timezone], weekday, TimeOfDay(hour, minute), t, u);
    }
  }

  /** A daily or weekly schedule that is polled within the grace window, and has a next occurrence at
      every instant of the run, enqueues every occurrence exactly once under every policy. */
  lemma CalendarsLoseNothing(env: Environment, s: RoutineSchedule, gap: nat, rules: Rules, st: TriggerState,
                             polls: seq<Poll>)
    requires Sound(env) && FiresApart(env, s, gap) && 0 < gap && EffectiveGrace(rules.grace) <= 9_999 * gap
    requires Forward(st.cursor, polls) && Healthy(polls) && GapsWithin(st.cursor, polls, rules.grace)
    requires forall t | t in st.jobs :: t <= st.cursor
    requires forall t: i64 | st.cursor <= t <= RunEnd(st.cursor, polls) :: Answers(env, s, t)
    ensures Run(Next(env, s), Firings(env, s), rules, st, polls).jobs
            == st.jobs + Between(Firings(env, s), st.cursor, RunEnd(st.cursor, polls))
  {
    CalendarIsSpaced(env, s, gap);
    forall t: i64 | st.cursor <= t <= RunEnd(st.cursor, polls)
      ensures Next(env, s)(t).Ok?
    {
      NextOccurrenceAnswers(env, s, t);
    }
    hide Sound, FiresApart, Answers;
    FrequentPollsLoseNothing(Next(env, s), Firings(env, s), rules, gap, st.cursor, polls);
    ExactlyOnce(Next(env, s), Firings(env, s), rules, st, polls);
  }
}
