/**
 Polling a schedule: the occurrences due between two instants under a missed-run policy.
 */
module Polling {
  import opened Wrappers
  import opened MachineInts
  import opened Schedule

  const MAX_OCCURRENCE_SCAN: nat := 10_000

  datatype MissedRunPolicy = Skip | RunOnce | CatchUp

  /** Reference definition: every firing in `(lo, hi]`, in order, found by looking at each instant. */
  ghost function Between(fires: i64 -> bool, lo: i64, hi: i64): seq<i64>
    decreases hi - lo
  {
    if hi <= lo then []
    else Between(fires, lo, hi - 1) + (if fires(hi) then [hi] else [])
  }

  lemma {:induction false} BetweenSplit(fires: i64 -> bool, lo: i64, mid: i64, hi: i64)
    requires lo <= mid <= hi
    ensures Between(fires, lo, hi) == Between(fires, lo, mid) + Between(fires, mid, hi)
    decreases hi - mid
  {
    if mid < hi {
      BetweenSplit(fires, lo, mid, hi - 1);
    }
  }

  /** `Between` lists exactly the firings of its interval, each once and in increasing order. */
  lemma {:induction false} BetweenIsExact(fires: i64 -> bool, lo: i64, hi: i64)
    ensures forall t: i64 :: t in Between(fires, lo, hi) <==> lo < t <= hi && fires(t)
    ensures forall i, j | 0 <= i < j < |Between(fires, lo, hi)| ::
              Between(fires, lo, hi)[i] < Between(fires, lo, hi)[j]
    decreases hi - lo
  {
    if lo < hi {
      BetweenIsExact(fires, lo, hi - 1);
      var list := Between(fires, lo, hi - 1);
      assert forall i | 0 <= i < |list| :: list[i] in list;
    }
  }

  lemma {:induction false} BetweenEmpty(fires: i64 -> bool, lo: i64, hi: i64)
    requires forall t: i64 | lo < t <= hi :: !fires(t)
    ensures Between(fires, lo, hi) == []
    decreases hi - lo
  {
    if lo < hi {
      BetweenEmpty(fires, lo, hi - 1);
    }
  }

  lemma BetweenNext(fires: i64 -> bool, lo: i64, t: i64)
    requires lo < t && fires(t)
    requires forall u: i64 | lo < u < t :: !fires(u)
    ensures Between(fires, lo, t) == [t]
  {
    BetweenEmpty(fires, lo, t - 1);
  }

  /** How many missed occurrences a policy still runs. */
  function Capacity(policy: MissedRunPolicy, catchUpLimit: u16): nat {
    match policy
    case Skip => 0
    case RunOnce => 1
    case CatchUp => if catchUpLimit == 0 then 1 else catchUpLimit
  }

  function LastOf(list: seq<i64>, n: nat): seq<i64> {
    if |list| <= n then list else list[|list| - n..]
  }

  /** The policy keeps the latest missed occurrences up to its capacity; recent ones always run. */
  function ApplyMissed(missed: seq<i64>, recent: seq<i64>, policy: MissedRunPolicy, catchUpLimit: u16): (r: seq<i64>)
    ensures r == LastOf(missed, Capacity(policy, catchUpLimit)) + recent
  {
    var selected := match policy {
      case Skip => []
      case RunOnce => if missed == [] then [] else [missed[|missed| - 1]]
      case CatchUp =>
        var limit: nat := if catchUpLimit < 1 then 1 else catchUpLimit;
        if |missed| < limit then missed else missed[|missed| - limit..]
    };
    selected + recent
  }

  /** The grace window, capped to what the clock can hold. */
  function EffectiveGrace(grace: u64): i64 {
    if grace > I64_MAX then I64_MAX else grace
  }

  /** Occurrences up to this instant are missed, later ones are recent. */
  function RecentBoundary(now: i64, grace: u64): i64 {
    SaturateI64(now - EffectiveGrace(grace))
  }

  function MissedUntil(after: i64, now: i64, grace: u64): i64 {
    if RecentBoundary(now, grace) < after then after else RecentBoundary(now, grace)
  }

  ghost function Missed(fires: i64 -> bool, after: i64, now: i64, grace: u64): seq<i64> {
    Between(fires, after, MissedUntil(after, now, grace))
  }

  /** What one poll runs: the policy's share of the missed occurrences, then every recent one. */
  ghost function Due(fires: i64 -> bool, after: i64, now: i64, grace: u64,
                     policy: MissedRunPolicy, catchUpLimit: u16): seq<i64> {
    if now <= after then []
    else
      LastOf(Missed(fires, after, now, grace), Capacity(policy, catchUpLimit))
      + Between(fires, MissedUntil(after, now, grace), now)
  }

  /** An occurrence is missed when it is at least the grace window old, as far as the clock can tell. */
  lemma WhatIsMissed(after: i64, now: i64, grace: u64, t: i64)
    requires after < t <= now
    ensures t <= MissedUntil(after, now, grace) <==> now - t >= (if grace <= I64_MAX then grace else I64_MAX)
  {
  }

  /** What a poll runs: every firing that is recent, and one that is missed exactly when fewer missed ones
      follow it than the policy still runs. */
  lemma WhatIsDue(fires: i64 -> bool, after: i64, now: i64, grace: u64, policy: MissedRunPolicy, catchUpLimit: u16,
                  t: i64)
    requires after < t <= now
    ensures var window := if grace <= I64_MAX then grace else I64_MAX;
            var due := Due(fires, after, now, grace, policy, catchUpLimit);
            var later := Between(fires, t, MissedUntil(after, now, grace));
            && (now - t < window ==> (t in due <==> fires(t)))
            && (now - t >= window ==>
                  match policy
                  case Skip => t !in due
                  case RunOnce => t in due <==> fires(t) && later == []
                  case CatchUp => t in due <==> fires(t) && (|later| < catchUpLimit || later == []))
  {
    var until := MissedUntil(after, now, grace);
    WhatIsMissed(after, now, grace, t);
    BetweenIsExact(fires, after, until);
    BetweenIsExact(fires, until, now);
    var missed, n := Between(fires, after, until), Capacity(policy, catchUpLimit);
    assert forall x | x in LastOf(missed, n) :: x in missed;
    if t <= until {
      BetweenSplit(fires, after, t, until);
      WhereItIs(Between(fires, after, t - 1), t, Between(fires, t, until), missed, n, fires(t));
    }
  }

  /** An element of an ascending list is among the last few when few enough follow it. */
  lemma WhereItIs(before: seq<i64>, t: i64, later: seq<i64>, list: seq<i64>, n: nat, there: bool)
    requires list == before + (if there then [t] else []) + later
    requires forall i, j | 0 <= i < j < |list| :: list[i] < list[j]
    requires !there ==> t !in list
    ensures t in LastOf(list, n) <==> there && |later| < n
  {
    if there {
      assert list[|before|] == t;
    }
  }

  /** `next` answers with the least firing after its argument, or with none when there is none. */
  ghost predicate AnswersLeast(next: i64 -> Result<Option<int>, ScheduleError>, fires: i64 -> bool) {
    forall c: i64 :: LeastAfter(fires, c, next(c))
  }

  ghost predicate LeastAfter(fires: i64 -> bool, c: i64, answer: Result<Option<int>, ScheduleError>) {
    match answer
    case Err(_) => true
    case Ok(None) => forall u: i64 | c < u :: !fires(u)
    case Ok(Some(t)) =>
      I64_MIN <= t <= I64_MAX && c < t && fires(t) && forall u: i64 | c < u < t :: !fires(u)
  }

  /** No step of the scan from `after` to `now` reports an error. */
  ghost predicate StepsSucceed(next: i64 -> Result<Option<int>, ScheduleError>, fires: i64 -> bool,
                               after: i64, now: i64) {
    next(after).Ok? && forall t: i64 | after < t <= now && fires(t) :: next(t).Ok?
  }

  /** The scan of one poll. It succeeds exactly when fewer than the scan cap are due and every
      step succeeds, and its answer is then the reference list of due occurrences. */
  method ScanDue(next: i64 -> Result<Option<int>, ScheduleError>, ghost fires: i64 -> bool,
                 after: i64, now: i64, grace: u64, policy: MissedRunPolicy, catchUpLimit: u16)
    returns (r: Result<seq<i64>, ScheduleError>)
    requires AnswersLeast(next, fires)
    ensures r.Ok? ==> r.value == Due(fires, after, now, grace, policy, catchUpLimit)
    ensures r.Ok? <==>
              now <= after
              || (|Between(fires, after, now)| < MAX_OCCURRENCE_SCAN && StepsSucceed(next, fires, after, now))
    ensures after < now && StepsSucceed(next, fires, after, now) && r.Err? ==> r.error == ScanLimit
  {
    hide Between, LastOf;
    if now <= after {
      return Ok([]);
    }
    var recentBoundary := RecentBoundary(now, grace);
    ghost var clip := MissedUntil(after, now, grace);
    var cursor := after;
    var missed: seq<i64>, recent: seq<i64> := [], [];
    BetweenEmpty(fires, after, after);
    for i := 0 to MAX_OCCURRENCE_SCAN
      invariant after <= cursor <= now
      invariant missed == Between(fires, after, if cursor < clip then cursor else clip)
      invariant recent == if cursor < clip then [] else Between(fires, clip, cursor)
      invariant |missed| + |recent| == i
      invariant cursor == after || fires(cursor)
      invariant forall t: i64 | after < t < cursor && fires(t) :: next(t).Ok?
      invariant after < cursor ==> next(after).Ok?
    {
      var found := next(cursor);
      assert LeastAfter(fires, cursor, found);
      if found.Err? {
        return Err(found.error);
      }
      if found.value.None? || found.value.value > now {
        ScanEnds(fires, after, clip, cursor, now);
        assert StepsSucceed(next, fires, after, now);
        return Ok(ApplyMissed(missed, recent, policy, catchUpLimit));
      }
      var following: i64 := found.value.value;
      ScanAdvances(fires, after, clip, cursor, following);
      if following <= recentBoundary {
        missed := missed + [following];
      } else {
        recent := recent + [following];
      }
      cursor := following;
    }
    ScanSoFar(fires, after, clip, cursor, now);
    return Err(ScanLimit);
  }

  ghost function Firings(env: Environment, s: RoutineSchedule): i64 -> bool {
    (t: i64) => Fires(env, s, t)
  }

  function Next(env: Environment, s: RoutineSchedule): i64 -> Result<Option<int>, ScheduleError> {
    (c: i64) => NextOccurrence(env, s, c)
  }

  /** One poll of a schedule. */
  method DueOccurrences(env: Environment, s: RoutineSchedule, after: i64, now: i64, grace: u64,
                        policy: MissedRunPolicy, catchUpLimit: u16)
    returns (r: Result<seq<i64>, ScheduleError>)
    requires Sound(env)
    ensures r.Ok? ==> r.value == Due(Firings(env, s), after, now, grace, policy, catchUpLimit)
    ensures r.Ok? <==>
              now <= after
              || (&& |Between(Firings(env, s), after, now)| < MAX_OCCURRENCE_SCAN
                  && StepsSucceed(Next(env, s), Firings(env, s), after, now))
    ensures after < now && StepsSucceed(Next(env, s), Firings(env, s), after, now) && r.Err? ==> r.error == ScanLimit
  {
    forall c: i64
      ensures LeastAfter(Firings(env, s), c, Next(env, s)(c))
    {
      NextOccurrenceIsLeast(env, s, c);
    }
    r := ScanDue(Next(env, s), Firings(env, s), after, now, grace, policy, catchUpLimit);
  }

  /** The part of the interval already scanned is a prefix of what is due. */
  lemma ScanSoFar(fires: i64 -> bool, after: i64, clip: i64, cursor: i64, now: i64)
    requires after <= clip <= now && after <= cursor <= now
    ensures var missed := Between(fires, after, if cursor < clip then cursor else clip);
            var recent := if cursor < clip then [] else Between(fires, clip, cursor);
            && Between(fires, after, cursor) == missed + recent
            && |missed| + |recent| <= |Between(fires, after, now)|
  {
    BetweenSplit(fires, after, cursor, now);
    if clip <= cursor {
      BetweenSplit(fires, after, clip, cursor);
    }
  }

  lemma ScanEnds(fires: i64 -> bool, after: i64, clip: i64, cursor: i64, now: i64)
    requires after <= clip <= now && after <= cursor <= now
    requires forall u: i64 | cursor < u <= now :: !fires(u)
    ensures Between(fires, after, if cursor < clip then cursor else clip) == Between(fires, after, clip)
    ensures (if cursor < clip then [] else Between(fires, clip, cursor)) == Between(fires, clip, now)
    ensures Between(fires, after, now) == Between(fires, after, clip) + Between(fires, clip, now)
  {
    BetweenSplit(fires, after, clip, now);
    if cursor < clip {
      BetweenSplit(fires, after, cursor, clip);
      BetweenEmpty(fires, cursor, clip);
      BetweenEmpty(fires, clip, now);
    } else {
      BetweenSplit(fires, clip, cursor, now);
      BetweenEmpty(fires, cursor, now);
    }
  }

  lemma ScanAdvances(fires: i64 -> bool, after: i64, clip: i64, cursor: i64, next: i64)
    requires after <= clip && after <= cursor < next && fires(next)
    requires forall u: i64 | cursor < u < next :: !fires(u)
    ensures next <= clip ==> Between(fires, after, next) == Between(fires, after, cursor) + [next]
    ensures next == clip ==> Between(fires, clip, next) == []
    ensures cursor < clip < next ==>
              Between(fires, after, clip) == Between(fires, after, cursor) && Between(fires, clip, next) == [next]
    ensures clip <= cursor ==> Between(fires, clip, next) == Between(fires, clip, cursor) + [next]
  {
    BetweenNext(fires, cursor, next);
    if next <= clip {
      BetweenSplit(fires, after, cursor, next);
    } else if cursor < clip {
      BetweenSplit(fires, after, cursor, clip);
      BetweenEmpty(fires, cursor, clip);
      BetweenNext(fires, clip, next);
    } else {
      BetweenSplit(fires, clip, cursor, next);
    }
  }
}
