/**
 When a routine schedule fires, and the search for its next occurrence.
 */
module Schedule {
  import opened Wrappers
  import opened MachineInts
  import opened TimeZones

  const MAX_DAILY_SCAN_DAYS: nat := 3_670
  const MAX_CRON_LENGTH: nat := 256

  // The calendar library's range: years -262143 to 262142.
  const MIN_INSTANT: int := -8_334_601_228_800_000
  const MAX_INSTANT: int := 8_210_266_876_799_999
  const MAX_DAY: int := 95_026_236

  type Text = seq<char>

  datatype RoutineSchedule =
    | OneShot(at: i64)
    | Interval(anchor: i64, everySeconds: u32)
    | DailyLocal(timezone: Text, hour: nat, minute: nat)
    | WeeklyLocal(timezone: Text, weekday: nat, hour: nat, minute: nat)
    | Cron(expression: Text, timezone: Text)

  datatype ScheduleError = Invalid | UnknownTimezone | ScanLimit

  /** What the engine is linked against: the zone database and the cron library. */
  datatype Environment = Environment(
    zones: map<Text, Zone>,
    cronParses: Text -> bool,
    cronFires: (Text, Zone, i64) -> bool,
    cronNext: (Text, Zone, i64) -> Option<i64>)

  // ---------------------------------------------------------------------------------------
  // When a schedule fires, independently of how the next occurrence is searched
  // ---------------------------------------------------------------------------------------

  predicate AllowedDay(weekday: Option<nat>, day: int) {
    // Day 0 of the local epoch is a Thursday; Monday is 1 and Sunday 7.
    weekday.Some? ==> (day + 3) % 7 + 1 == weekday.value
  }

  function TimeOfDay(hour: nat, minute: nat): nat {
    hour * 3_600_000 + minute * 60_000
  }

  /** On local day `day`, an allowed one, the wall clock shows the time of day at `t`, and shows
      it for the first time. */
  ghost predicate FiresOn(z: Zone, weekday: Option<nat>, timeOfDay: int, day: int, t: int) {
    && AllowedDay(weekday, day)
    && LocalAt(z, t) == day * 86_400_000 + timeOfDay
    && forall s: int :: LocalAt(z, s) == day * 86_400_000 + timeOfDay ==> t <= s
  }

  /** When a local schedule fires, the wall clock shows its hour and its minute sharp, for the first time. */
  lemma WhatTheClockShows(z: Zone, weekday: Option<nat>, hour: nat, minute: nat, day: int, t: int)
    requires FiresOn(z, weekday, TimeOfDay(hour, minute), day, t)
    ensures LocalAt(z, t) == ((day * 24 + hour) * 60 + minute) * 60_000
    ensures forall s: int | LocalAt(z, s) == LocalAt(z, t) :: t <= s
  {
    hide LocalAt;
  }

  /** Day 0 was a Thursday, and so was every seventh before and after it; Monday is 1. */
  lemma WhichWeekdays(day: int)
    ensures AllowedDay(None, day)
    ensures AllowedDay(Some(1), day) <==> day % 7 == 4
    ensures AllowedDay(Some(2), day) <==> day % 7 == 5
    ensures AllowedDay(Some(3), day) <==> day % 7 == 6
    ensures AllowedDay(Some(4), day) <==> day % 7 == 0
    ensures AllowedDay(Some(5), day) <==> day % 7 == 1
    ensures AllowedDay(Some(6), day) <==> day % 7 == 2
    ensures AllowedDay(Some(7), day) <==> day % 7 == 3
  {
  }

  ghost predicate FiresLocally(z: Zone, weekday: Option<nat>, timeOfDay: int, t: int) {
    exists day: int :: FiresOn(z, weekday, timeOfDay, day, t)
  }

  ghost predicate Fires(env: Environment, schedule: RoutineSchedule, t: i64) {
    match schedule
    case OneShot(at) => t == at
    case Interval(anchor, every) =>
      every > 0 && exists k: nat :: t == anchor + k * (every * 1_000)
    case DailyLocal(timezone, hour, minute) =>
      timezone in env.zones && FiresLocally(env.zones[timezone], None, TimeOfDay(hour, minute), t)
    case WeeklyLocal(timezone, weekday, hour, minute) =>
      timezone in env.zones && FiresLocally(env.zones[timezone], Some(weekday), TimeOfDay(hour, minute), t)
    case Cron(expression, timezone) =>
      timezone in env.zones && env.cronFires(expression, env.zones[timezone], t)
  }

  /** A one-shot fires at its instant; an interval at its anchor and each whole number of periods of so many
      seconds later; a local schedule on some day, on which it is first shown. */
  lemma WhatFires(env: Environment, t: i64, at: i64, anchor: i64, every: u32, timezone: Text, hour: nat, minute: nat,
                  weekday: nat)
    ensures Fires(env, OneShot(at), t) <==> t == at
    ensures Fires(env, Interval(anchor, every), t) <==>
              every > 0 && anchor <= t && (t - anchor) % (every * 1_000) == 0
    ensures Fires(env, DailyLocal(timezone, hour, minute), t) <==>
              && timezone in env.zones
              && exists day: int :: FiresOn(env.zones[timezone], None, TimeOfDay(hour, minute), day, t)
    ensures Fires(env, WeeklyLocal(timezone, weekday, hour, minute), t) <==>
              && timezone in env.zones
              && exists day: int :: FiresOn(env.zones[timezone], Some(weekday), TimeOfDay(hour, minute), day, t)
  {
    var period := every * 1_000;
    if every > 0 && anchor <= t && (t - anchor) % period == 0 {
      assert t == anchor + ((t - anchor) / period) * period;
    }
    if Fires(env, Interval(anchor, every), t) {
      var k: nat :| t == anchor + k * period;
      MultipleLeavesNothing(k, period);
    }
  }

  lemma MultipleLeavesNothing(k: nat, period: nat)
    requires period > 0
    ensures (k * period) % period == 0 && k * period >= 0
  {
    var x := k * period;
    var q, r := x / period, x % period;
    assert x == q * period + r;
    if k < q {
      MulMonotone(k + 1, q, period);
    } else {
      MulMonotone(q + 1, if k == q then k + 1 else k, period);
    }
  }

  /** What is asked of the zone database and of the cron library: zones are well formed and
      settled, and a cron answer is the first firing after the cursor. */
  ghost predicate Sound(env: Environment) {
    && (forall name | name in env.zones :: WellFormed(env.zones[name]) && Settled(env.zones[name]))
    && (forall expression: Text, z: Zone, c: i64 | env.cronNext(expression, z, c).Some? ::
          var t := env.cronNext(expression, z, c).value;
          && c < t && env.cronFires(expression, z, t)
          && forall u: i64 :: c < u < t ==> !env.cronFires(expression, z, u))
  }

  // ---------------------------------------------------------------------------------------
  // The next occurrence
  // ---------------------------------------------------------------------------------------

  predicate InCalendar(t: int) {
    MIN_INSTANT <= t <= MAX_INSTANT
  }

  /** The instant at which the schedule fires on a local day, if it does. */
  function Candidate(z: Zone, weekday: Option<nat>, timeOfDay: int, day: int): Option<int> {
    if AllowedDay(weekday, day) then ChosenInstant(z, day * 86_400_000 + timeOfDay) else None
  }

  function Candidates(z: Zone, weekday: Option<nat>, timeOfDay: int): int -> Option<int> {
    day => Candidate(z, weekday, timeOfDay, day)
  }

  /** The search over local days `day` to `last`: the first candidate after the cursor. */
  function ScanDays(candidates: int -> Option<int>, after: i64, day: int, last: int): Result<int, ScheduleError>
    decreases last - day
  {
    if day > last then Err(ScanLimit)
    else if day > MAX_DAY then Err(Invalid)
    else if candidates(day).Some? && candidates(day).value > after then Ok(candidates(day).value)
    else ScanDays(candidates, after, day + 1, last)
  }

  predicate LocalTimeIsValid(weekday: Option<nat>, hour: nat, minute: nat) {
    hour <= 23 && minute <= 59 && (weekday.Some? ==> 1 <= weekday.value <= 7)
  }

  function NextLocal(env: Environment, timezone: Text, weekday: Option<nat>, hour: nat, minute: nat, after: i64)
    : Result<int, ScheduleError>
  {
    if !LocalTimeIsValid(weekday, hour, minute) then Err(Invalid)
    else if timezone !in env.zones then Err(UnknownTimezone)
    else if !InCalendar(after) then Err(Invalid)
    else
      var z := env.zones[timezone];
      var start := LocalDay(z, after);
      ScanDays(Candidates(z, weekday, TimeOfDay(hour, minute)), after, start, start + MAX_DAILY_SCAN_DAYS)
  }

  /** The search as the engine runs it: a loop over day offsets. */
  method FindNextLocal(env: Environment, timezone: Text, weekday: Option<nat>, hour: nat, minute: nat, after: i64)
    returns (r: Result<int, ScheduleError>)
    ensures r == NextLocal(env, timezone, weekday, hour, minute, after)
  {
    hide LocalAt, LocalDay, TimeOfDay, Candidates, ScanDays;
    if hour > 23 || minute > 59 || (weekday.Some? && !(1 <= weekday.value <= 7)) {
      return Err(Invalid);
    }
    if timezone !in env.zones {
      return Err(UnknownTimezone);
    }
    if !InCalendar(after) {
      return Err(Invalid);
    }
    var z := env.zones[timezone];
    r := SearchDays(z, weekday, TimeOfDay(hour, minute), after, LocalDay(z, after));
  }

  method SearchDays(z: Zone, weekday: Option<nat>, timeOfDay: nat, after: i64, startDate: int)
    returns (r: Result<int, ScheduleError>)
    ensures r == ScanDays(Candidates(z, weekday, timeOfDay), after, startDate, startDate + MAX_DAILY_SCAN_DAYS)
  {
    ghost var candidates, last := Candidates(z, weekday, timeOfDay), startDate + MAX_DAILY_SCAN_DAYS;
    ghost var answer := ScanDays(candidates, after, startDate, last);
    hide *;
    for dayOffset := 0 to MAX_DAILY_SCAN_DAYS + 1
      invariant answer == ScanDays(candidates, after, startDate + dayOffset, last)
    {
      var date := startDate + dayOffset;
      ScanOneDay(candidates, after, date, last);
      CandidateOf(z, weekday, timeOfDay, date);
      if date > MAX_DAY {
        return Err(Invalid);
      }
      var candidate := Candidate(z, weekday, timeOfDay, date);
      if candidate.Some? && candidate.value > after {
        return Ok(candidate.value);
      }
    }
    ScanOneDay(candidates, after, last + 1, last);
    return Err(ScanLimit);
  }

  lemma CandidateOf(z: Zone, weekday: Option<nat>, timeOfDay: int, day: int)
    ensures Candidates(z, weekday, timeOfDay)(day) == Candidate(z, weekday, timeOfDay, day)
  {
  }

  /** The search, one day on. */
  lemma ScanOneDay(candidates: int -> Option<int>, after: i64, day: int, last: int)
    ensures ScanDays(candidates, after, day, last)
            == if day > last then Err(ScanLimit)
               else if day > MAX_DAY then Err(Invalid)
               else if candidates(day).Some? && candidates(day).value > after then Ok(candidates(day).value)
               else ScanDays(candidates, after, day + 1, last)
  {
  }

  predicate IsSpace(c: char) {
    c == ' ' || c == '\t' || c == '\n' || c == '\r'
  }

  predicate CronTextIsValid(expression: Text) {
    && 0 < |expression| <= MAX_CRON_LENGTH
    && !IsSpace(expression[0]) && !IsSpace(expression[|expression| - 1])
  }

  function NextCron(env: Environment, expression: Text, timezone: Text, after: i64): Result<int, ScheduleError> {
    if !CronTextIsValid(expression) then Err(Invalid)
    else if timezone !in env.zones then Err(UnknownTimezone)
    else if !InCalendar(after) then Err(Invalid)
    else if !env.cronParses(expression) then Err(Invalid)
    else
      match env.cronNext(expression, env.zones[timezone], after)
      case Some(t) => Ok(t)
      case None => Err(ScanLimit)
  }

  function NextStep(anchor: i64, period: nat, after: i64): Result<Option<int>, ScheduleError>
    requires period > 0
  {
    if after < anchor then Ok(Some(anchor))
    else if CheckedI64(after - anchor).None? then Err(Invalid)
    else
      var steps := (after - anchor) / period + 1;
      if CheckedI64(steps).None? || CheckedI64(steps * period).None? then Err(Invalid)
      else Ok(CheckedI64(anchor + steps * period))
  }

  function NextInterval(anchor: i64, everySeconds: u32, after: i64): Result<Option<int>, ScheduleError> {
    if everySeconds == 0 then Err(Invalid) else NextStep(anchor, everySeconds * 1_000, after)
  }

  function Found(r: Result<int, ScheduleError>): Result<Option<int>, ScheduleError> {
    match r
    case Ok(t) => Ok(Some(t))
    case Err(e) => Err(e)
  }

  function NextOccurrence(env: Environment, schedule: RoutineSchedule, after: i64)
    : Result<Option<int>, ScheduleError>
  {
    match schedule
    case OneShot(at) => Ok(if at > after then Some(at) else None)
    case Interval(anchor, every) => NextInterval(anchor, every, after)
    case DailyLocal(timezone, hour, minute) => Found(NextLocal(env, timezone, None, hour, minute, after))
    case WeeklyLocal(timezone, weekday, hour, minute) =>
      Found(NextLocal(env, timezone, Some(weekday), hour, minute, after))
    case Cron(expression, timezone) => Found(NextCron(env, expression, timezone, after))
  }

  /** Which schedules are refused, and how, before anything is searched. */
  lemma WhatIsRefused(env: Environment, s: RoutineSchedule, after: i64)
    ensures s.Interval? && s.everySeconds == 0 ==> NextOccurrence(env, s, after) == Err(Invalid)
    ensures (s.DailyLocal? || s.WeeklyLocal?) && (s.hour > 23 || s.minute > 59) ==>
              NextOccurrence(env, s, after) == Err(Invalid)
    ensures s.WeeklyLocal? && (s.weekday < 1 || s.weekday > 7) ==> NextOccurrence(env, s, after) == Err(Invalid)
    ensures (s.DailyLocal? || (s.WeeklyLocal? && 1 <= s.weekday <= 7)) && s.hour <= 23 && s.minute <= 59
            && s.timezone !in env.zones ==>
              NextOccurrence(env, s, after) == Err(UnknownTimezone)
    ensures s.Cron? && (s.expression == [] || |s.expression| > 256) ==> NextOccurrence(env, s, after) == Err(Invalid)
    ensures s.Cron? && s.expression != []
            && (s.expression[0] in [' ', '\t', '\n', '\r']
                || s.expression[|s.expression| - 1] in [' ', '\t', '\n', '\r']) ==>
              NextOccurrence(env, s, after) == Err(Invalid)
    ensures s.Cron? && 0 < |s.expression| <= 256 && s.expression[0] !in [' ', '\t', '\n', '\r']
            && s.expression[|s.expression| - 1] !in [' ', '\t', '\n', '\r'] ==>
              NextOccurrence(env, s, after)
              == if s.timezone !in env.zones then Err(UnknownTimezone)
                 else if after < -8_334_601_228_800_000 || 8_210_266_876_799_999 < after then Err(Invalid)
                 else if !env.cronParses(s.expression) then Err(Invalid)
                 else match env.cronNext(s.expression, env.zones[s.timezone], after)
                   case Some(t) => Ok(Some(t))
                   case None => Err(ScanLimit)
    // The calendar library's range.
    ensures InCalendar(after) <==> -8_334_601_228_800_000 <= after <= 8_210_266_876_799_999
    ensures s.OneShot? ==> NextOccurrence(env, s, after) == Ok(if s.at > after then Some(s.at) else None)
  {
  }

  // ---------------------------------------------------------------------------------------
  // The next occurrence is the least firing after the cursor
  // ---------------------------------------------------------------------------------------

  /** The division form computes the least `anchor + k * period` after the cursor; without an
      answer the next multiple is past the range of the clock, and an error means that it, or the time
      since the anchor, overflows. */
  lemma NextStepIsLeast(anchor: i64, period: nat, after: i64, k: nat)
    requires period > 0
    ensures match NextStep(anchor, period, after)
            case Err(_) =>
              anchor <= after && (after - anchor > I64_MAX || NextOffset(anchor, period, after) > I64_MAX)
            case Ok(Some(t)) => after < t && (after < anchor + k * period ==> t <= anchor + k * period)
            case Ok(None) => after < anchor + k * period ==> I64_MAX < anchor + k * period
  {
    NextStepOutcome(anchor, period, after);
    if after >= anchor {
      var steps := (after - anchor) / period + 1;
      DivisionBounds(after - anchor, period);
      if k < steps {
        MulMonotone(k, steps - 1, period);
      } else {
        MulMonotone(steps, k, period);
      }
    }
  }

  lemma NextStepIsMultiple(anchor: i64, period: nat, after: i64) returns (k: nat)
    requires period > 0
    requires NextStep(anchor, period, after).Ok? && NextStep(anchor, period, after).value.Some?
    ensures NextStep(anchor, period, after).value.value == anchor + k * period
  {
    if after < anchor {
      k := 0;
    } else {
      k := (after - anchor) / period + 1;
    }
  }

  /** The first multiple of the period after the cursor, as an offset from the anchor. */
  function NextOffset(anchor: i64, period: nat, after: i64): int
    requires period > 0
  {
    ((after - anchor) / period + 1) * period
  }

  /** When the division form reports an error, and when it reports that there is no occurrence: an
      error exactly when the time since the anchor or the offset of the next multiple does not fit,
      none exactly when only the sum with the anchor does not. */
  lemma NextStepOutcome(anchor: i64, period: nat, after: i64)
    requires period > 0
    ensures NextStep(anchor, period, after).Err? <==>
              anchor <= after && (after - anchor > I64_MAX || NextOffset(anchor, period, after) > I64_MAX)
    ensures NextStep(anchor, period, after) == Ok(None) <==>
              && anchor <= after && after - anchor <= I64_MAX && NextOffset(anchor, period, after) <= I64_MAX
              && anchor + NextOffset(anchor, period, after) > I64_MAX
    ensures NextStep(anchor, period, after).Err? ==> NextStep(anchor, period, after).error == Invalid
  {
    if anchor <= after {
      DivisionBounds(after - anchor, period);
      QuotientIsSmaller(after - anchor, period);
    }
  }

  lemma QuotientIsSmaller(a: nat, b: nat)
    requires b > 0
    ensures 0 <= a / b <= a && a / b + 1 <= (a / b + 1) * b
  {
    var q := a / b;
    assert a == b * q + a % b;
    MulMonotone(1, b, q);
    MulMonotone(1, b, q + 1);
  }

  /** The overflows are told apart: the last addition alone overflows without an error. */
  lemma OverflowWithoutError()
    ensures NextOccurrence(Environment(map[], _ => true, (_, _, _) => false, (_, _, _) => None),
                           Interval(I64_MAX - 500, 1), I64_MAX) == Ok(None)
    ensures NextOccurrence(Environment(map[], _ => true, (_, _, _) => false, (_, _, _) => None),
                           Interval(I64_MIN, 1), 0) == Err(Invalid)
  {
  }

  lemma DivisionBounds(a: nat, b: nat)
    requires b > 0
    ensures (a / b) * b <= a < (a / b + 1) * b
  {
    assert a == b * (a / b) + a % b;
    assert (a / b + 1) * b == (a / b) * b + b;
  }

  lemma MulMonotone(a: int, b: int, c: nat)
    requires a <= b
    ensures a * c <= b * c
  {
    assert b * c == a * c + (b - a) * c;
    assert (b - a) * c >= 0;
  }

  lemma IntervalFires(env: Environment, anchor: i64, every: u32, after: i64)
    ensures IsLeastFiring(env, Interval(anchor, every), after)
  {
    var r := NextInterval(anchor, every, after);
    if r.Ok? {
      var period: nat := every * 1_000;
      if r.value.Some? {
        var k := NextStepIsMultiple(anchor, period, after);
        NextStepIsLeast(anchor, period, after, 0);
      }
      forall u: i64 | after < u && Fires(env, Interval(anchor, every), u)
        ensures r.value.Some? && r.value.value <= u
      {
        var k: nat :| u == anchor + k * period;
        NextStepIsLeast(anchor, period, after, k);
      }
    }
  }

  /** A successful answer for `after` is the least firing after it; the answer "none" means that
      the schedule does not fire any more. */
  ghost predicate IsLeastFiring(env: Environment, s: RoutineSchedule, after: i64) {
    match NextOccurrence(env, s, after)
    case Err(_) => true
    case Ok(None) => forall u: i64 | after < u :: !Fires(env, s, u)
    case Ok(Some(t)) =>
      && I64_MIN <= t <= I64_MAX && after < t && Fires(env, s, t)
      && forall u: i64 | after < u < t :: !Fires(env, s, u)
  }

  /** The candidate of a day is its one firing. */
  lemma CandidateFires(z: Zone, weekday: Option<nat>, timeOfDay: int, day: int)
    requires WellFormed(z)
    ensures match Candidate(z, weekday, timeOfDay, day)
            case Some(t) => FiresOn(z, weekday, timeOfDay, day, t)
            case None => forall u: int :: !FiresOn(z, weekday, timeOfDay, day, u)
  {
    ChosenIsEarliest(z, day * 86_400_000 + timeOfDay);
  }

  /** The search answers with the candidate of the first day of the window that has one after the
      cursor; it reports the scan limit only if no day of the window has one. */
  lemma {:induction false} ScanFinds(candidates: int -> Option<int>, after: i64, day: int, last: int) returns (on: int)
    ensures match ScanDays(candidates, after, day, last)
            case Ok(t) =>
              && t > after && day <= on <= MAX_DAY && candidates(on) == Some(t)
              && forall d: int | day <= d < on :: candidates(d).Some? ==> candidates(d).value <= after
            case Err(e) =>
              e == ScanLimit ==>
                forall d: int | day <= d <= last :: candidates(d).Some? ==> candidates(d).value <= after
    decreases last - day
  {
    on := day;
    if day <= last && day <= MAX_DAY && !(candidates(day).Some? && candidates(day).value > after) {
      on := ScanFinds(candidates, after, day + 1, last);
    }
  }

  /** In a settled zone no firing after the cursor hides before the day the search starts on, and
      none between the cursor and the answer lies on a later day than the answer. */
  lemma NextLocalIsLeast(z: Zone, weekday: Option<nat>, timeOfDay: int, after: i64, last: int)
    requires WellFormed(z) && Settled(z) && 0 <= timeOfDay < 86_400_000
    ensures match ScanDays(Candidates(z, weekday, timeOfDay), after, LocalDay(z, after), last)
            case Ok(t) =>
              && after < t && FiresLocally(z, weekday, timeOfDay, t)
              && (forall u: int | after < u < t :: !FiresLocally(z, weekday, timeOfDay, u))
              && t < (MAX_DAY + 3) * 86_400_000
            case Err(e) =>
              e == ScanLimit ==>
                forall d: int, u: int | after < u && FiresOn(z, weekday, timeOfDay, d, u) :: last < d
  {
    var start := LocalDay(z, after);
    var candidates := Candidates(z, weekday, timeOfDay);
    var r := ScanDays(candidates, after, start, last);
    var on := ScanFinds(candidates, after, start, last);
    CandidateFires(z, weekday, timeOfDay, on);
    forall d: int, u: int | after < u && FiresOn(z, weekday, timeOfDay, d, u)
      ensures start <= d && candidates(d) == Some(u)
      ensures r.Ok? ==> r.value <= u
    {
      CandidateFires(z, weekday, timeOfDay, d);
      if d < start {
        var t0 := RepeatedReading(z, after, u);
      }
      if r.Ok? && u < r.value {
        assert candidates(d) == Some(u);
        assert on <= d;
        var t0 := RepeatedReading(z, u, r.value);
      }
    }
  }

  lemma LocalFires(env: Environment, timezone: Text, weekday: Option<nat>, hour: nat, minute: nat, after: i64)
    requires Sound(env) && NextLocal(env, timezone, weekday, hour, minute, after).Ok?
    ensures timezone in env.zones
    ensures var t := NextLocal(env, timezone, weekday, hour, minute, after).value;
            var z := env.zones[timezone];
            && after < t <= I64_MAX
            && FiresLocally(z, weekday, TimeOfDay(hour, minute), t)
            && forall u: int | after < u < t :: !FiresLocally(z, weekday, TimeOfDay(hour, minute), u)
  {
    hide FiresOn, FiresLocally, LocalAt, Candidate, Candidates, ScanDays, WellFormed, Settled;
    var z := env.zones[timezone];
    NextLocalIsLeast(z, weekday, TimeOfDay(hour, minute), after, LocalDay(z, after) + MAX_DAILY_SCAN_DAYS);
  }

  /** A day of the search window, inside the calendar, has a firing after the cursor. */
  ghost predicate FiresInWindow(z: Zone, weekday: Option<nat>, timeOfDay: int, after: i64, start: int, last: int) {
    exists d: int, u: int ::
      start <= d <= last && d <= MAX_DAY && after < u && FiresOn(z, weekday, timeOfDay, d, u)
  }

  /** The outcome of the search over days: an answer exactly when some day of the window has one,
      and otherwise an error that tells whether the window left the calendar. */
  lemma {:induction false} ScanOutcome(candidates: int -> Option<int>, after: i64, day: int, last: int)
    ensures var r := ScanDays(candidates, after, day, last);
            && (r.Ok? <==>
                  exists d: int ::
                    day <= d <= last && d <= MAX_DAY && candidates(d).Some? && candidates(d).value > after)
            && (r.Err? ==> r.error == if day <= last && last > MAX_DAY then Invalid else ScanLimit)
    decreases last - day
  {
    if day <= last && day <= MAX_DAY && !(candidates(day).Some? && candidates(day).value > after) {
      ScanOutcome(candidates, after, day + 1, last);
    }
  }

  lemma WindowOfCandidates(z: Zone, weekday: Option<nat>, timeOfDay: int, after: i64, start: int, last: int)
    requires WellFormed(z)
    ensures FiresInWindow(z, weekday, timeOfDay, after, start, last) <==>
              var candidates := Candidates(z, weekday, timeOfDay);
              exists d: int :: start <= d <= last && d <= MAX_DAY && candidates(d).Some? && candidates(d).value > after
  {
    var candidates := Candidates(z, weekday, timeOfDay);
    forall d: int, u: int | FiresOn(z, weekday, timeOfDay, d, u)
      ensures candidates(d) == Some(u)
    {
      CandidateFires(z, weekday, timeOfDay, d);
    }
    forall d: int | candidates(d).Some?
      ensures FiresOn(z, weekday, timeOfDay, d, candidates(d).value)
    {
      CandidateFires(z, weekday, timeOfDay, d);
    }
    hide FiresOn, Candidates, Candidate;
  }

  /** The outcome of a local schedule in full: which arguments are rejected and how, and otherwise
      an answer exactly when a day of the window has a firing after the cursor. */
  lemma NextLocalOutcome(env: Environment, timezone: Text, weekday: Option<nat>, hour: nat, minute: nat, after: i64)
    requires Sound(env)
    ensures var r := NextLocal(env, timezone, weekday, hour, minute, after);
            if !LocalTimeIsValid(weekday, hour, minute) then r == Err(Invalid)
            else if timezone !in env.zones then r == Err(UnknownTimezone)
            else if !InCalendar(after) then r == Err(Invalid)
            else
              var z := env.zones[timezone];
              var start := LocalDay(z, after);
              var last := start + MAX_DAILY_SCAN_DAYS;
              && (r.Ok? <==> FiresInWindow(z, weekday, TimeOfDay(hour, minute), after, start, last))
              && (r.Err? ==> r.error == if last > MAX_DAY then Invalid else ScanLimit)
  {
    hide FiresInWindow, LocalAt, Candidate, Candidates, ScanDays, WellFormed, Settled;
    if LocalTimeIsValid(weekday, hour, minute) && timezone in env.zones && InCalendar(after) {
      var z := env.zones[timezone];
      var start := LocalDay(z, after);
      WindowOfCandidates(z, weekday, TimeOfDay(hour, minute), after, start, start + MAX_DAILY_SCAN_DAYS);
      ScanOutcome(Candidates(z, weekday, TimeOfDay(hour, minute)), after, start, start + MAX_DAILY_SCAN_DAYS);
    }
  }

  /** What a local schedule needs to have a next occurrence. */
  ghost predicate LocalAnswers(env: Environment, timezone: Text, weekday: Option<nat>, hour: nat, minute: nat,
                               after: i64) {
    && LocalTimeIsValid(weekday, hour, minute) && timezone in env.zones && InCalendar(after)
    && var z := env.zones[timezone];
       var start := LocalDay(z, after);
       FiresInWindow(z, weekday, TimeOfDay(hour, minute), after, start, start + MAX_DAILY_SCAN_DAYS)
  }

  /** What a schedule needs for its next occurrence to be found without an error. */
  ghost predicate Answers(env: Environment, schedule: RoutineSchedule, after: i64) {
    match schedule
    case OneShot(_) => true
    case Interval(anchor, every) =>
      && every > 0
      && (after < anchor
          || (after - anchor <= I64_MAX && NextOffset(anchor, every * 1_000, after) <= I64_MAX))
    case DailyLocal(timezone, hour, minute) => LocalAnswers(env, timezone, None, hour, minute, after)
    case WeeklyLocal(timezone, weekday, hour, minute) => LocalAnswers(env, timezone, Some(weekday), hour, minute, after)
    case Cron(expression, timezone) =>
      && CronTextIsValid(expression) && timezone in env.zones && InCalendar(after) && env.cronParses(expression)
      && env.cronNext(expression, env.zones[timezone], after).Some?
  }

  /** The next occurrence is found, or known not to exist, exactly under those conditions. */
  lemma NextOccurrenceAnswers(env: Environment, schedule: RoutineSchedule, after: i64)
    requires Sound(env)
    ensures NextOccurrence(env, schedule, after).Ok? <==> Answers(env, schedule, after)
  {
    hide FiresInWindow, WellFormed, Settled, NextLocal, NextStep, NextOffset;
    match schedule
    case OneShot(_) =>
    case Interval(anchor, every) =>
      if every > 0 {
        NextStepOutcome(anchor, every * 1_000, after);
      }
    case DailyLocal(timezone, hour, minute) => NextLocalOutcome(env, timezone, None, hour, minute, after);
    case WeeklyLocal(timezone, weekday, hour, minute) =>
      NextLocalOutcome(env, timezone, Some(weekday), hour, minute, after);
    case Cron(_, _) =>
  }

  /** For every kind of schedule, `next_occurrence` answers with the least firing after the cursor, or
      with none when there is none, exactly when the schedule has what it needs. */
  lemma NextOccurrenceIsLeast(env: Environment, s: RoutineSchedule, after: i64)
    requires Sound(env)
    ensures match NextOccurrence(env, s, after)
            case Err(_) => true
            case Ok(None) => forall u: i64 | after < u :: !Fires(env, s, u)
            case Ok(Some(t)) =>
              && I64_MIN <= t <= I64_MAX && after < t && Fires(env, s, t)
              && forall u: i64 | after < u < t :: !Fires(env, s, u)
    ensures NextOccurrence(env, s, after).Ok? <==> Answers(env, s, after)
  {
    NextOccurrenceAnswers(env, s, after);
    hide Answers;
    match s
    case OneShot(_) =>
    case Interval(anchor, every) => IntervalFires(env, anchor, every, after);
    case DailyLocal(timezone, hour, minute) =>
      if NextOccurrence(env, s, after).Ok? {
        LocalFires(env, timezone, None, hour, minute, after);
      }
    case WeeklyLocal(timezone, weekday, hour, minute) =>
      if NextOccurrence(env, s, after).Ok? {
        LocalFires(env, timezone, Some(weekday), hour, minute, after);
      }
    case Cron(_, _) =>
  }
}
