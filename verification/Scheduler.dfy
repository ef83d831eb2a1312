/**
 The server's evaluation of one scheduled trigger: each poll asks for the occurrences due since the
 stored cursor, enqueues them under keys that are stored once, and moves the cursor when all went well.
 */
module Scheduler {
  import opened Wrappers
  import opened MachineInts
  import opened Schedule
  import opened Polling

  const MISSED_GRACE_MS: u64 := 30_000

  /** What the storage does with an occurrence: it keeps it, refuses it, or keeps it and reports an
      error afterwards. */
  datatype Enqueued = Stored | Refused | Unreported

  /** One evaluation: the clock, the storage's answers to the occurrences in turn, and whether the
      new cursor is written. */
  datatype Poll = Poll(now: i64, answers: nat -> Enqueued, advances: bool)

  datatype Rules = Rules(grace: u64, policy: MissedRunPolicy, catchUpLimit: u16)

  /** The stored cursor of a trigger, and the occurrences for which jobs were enqueued. */
  datatype TriggerState = TriggerState(cursor: i64, jobs: seq<i64>)

  // ---------------------------------------------------------------------------------------
  // One poll
  // ---------------------------------------------------------------------------------------

  /** A delivery key is stored once. */
  function Deliver(jobs: seq<i64>, t: i64): seq<i64> {
    if t in jobs then jobs else jobs + [t]
  }

  function DeliverAll(jobs: seq<i64>, list: seq<i64>): seq<i64> {
    if list == [] then jobs
    else Deliver(DeliverAll(jobs, list[..|list| - 1]), list[|list| - 1])
  }

  /** How many occurrences are stored before the storage stops the poll. */
  function StoredFrom(answers: nat -> Enqueued, i: nat, n: nat): (r: nat)
    requires i <= n
    ensures i <= r <= n
    decreases n - i
  {
    if i == n then n
    else match answers(i)
      case Stored => StoredFrom(answers, i + 1, n)
      case Refused => i
      case Unreported => i + 1
  }

  /** The storage keeps everything, or refuses the next, or reports an error for the last one it keeps. */
  lemma {:induction false} WhatIsStored(answers: nat -> Enqueued, i: nat, n: nat)
    requires i <= n
    ensures var r := StoredFrom(answers, i, n);
            || (r == n && forall k: nat | i <= k < n :: answers(k) == Stored)
            || (r < n && answers(r) == Refused && forall k: nat | i <= k < r :: answers(k) == Stored)
            || (i < r && answers(r - 1) == Unreported && forall k: nat | i <= k < r - 1 :: answers(k) == Stored)
    decreases n - i
  {
    if i < n && answers(i) == Stored {
      WhatIsStored(answers, i + 1, n);
    }
  }

  predicate AllStored(answers: nat -> Enqueued, i: nat, n: nat) {
    forall k: nat | i <= k < n :: answers(k) == Stored
  }

  /** The occurrences due can be found: not too many, and no step fails. */
  ghost predicate Scans(next: i64 -> Result<Option<int>, ScheduleError>, fires: i64 -> bool, after: i64, now: i64) {
    now <= after || (|Between(fires, after, now)| < MAX_OCCURRENCE_SCAN && StepsSucceed(next, fires, after, now))
  }

  ghost function DueAt(fires: i64 -> bool, rules: Rules, after: i64, now: i64): seq<i64> {
    Due(fires, after, now, rules.grace, rules.policy, rules.catchUpLimit)
  }

  /** What a poll makes of a trigger. A failed scan changes nothing; a stopped poll keeps what was
      stored and the cursor. */
  ghost function Step(next: i64 -> Result<Option<int>, ScheduleError>, fires: i64 -> bool, rules: Rules,
                      st: TriggerState, poll: Poll): TriggerState
  {
    if !Scans(next, fires, st.cursor, poll.now) then st
    else
      var due := DueAt(fires, rules, st.cursor, poll.now);
      TriggerState(
        if AllStored(poll.answers, 0, |due|) && poll.advances then poll.now else st.cursor,
        DeliverAll(st.jobs, due[..StoredFrom(poll.answers, 0, |due|)]))
  }

  ghost function Run(next: i64 -> Result<Option<int>, ScheduleError>, fires: i64 -> bool, rules: Rules,
                     st: TriggerState, polls: seq<Poll>): TriggerState
    decreases |polls|
  {
    if polls == [] then st else Run(next, fires, rules, Step(next, fires, rules, st, polls[0]), polls[1..])
  }

  /** A trigger as it is stored. */
  class Trigger {
    const env: Environment
    const schedule: RoutineSchedule
    const rules: Rules
    var cursor: i64
    var delivered: set<i64>
    var jobs: seq<i64>

    /** The keys stored are those of the jobs. */
    ghost predicate Valid()
      reads this`delivered, this`jobs
    {
      forall t :: t in delivered <==> t in jobs
    }

    ghost function State(): TriggerState
      reads this`cursor, this`jobs
    {
      TriggerState(cursor, jobs)
    }

    constructor (env: Environment, schedule: RoutineSchedule, rules: Rules, cursor: i64)
      ensures Valid() && State() == TriggerState(cursor, [])
      ensures this.env == env && this.schedule == schedule && this.rules == rules
    {
      this.env := env;
      this.schedule := schedule;
      this.rules := rules;
      this.cursor := cursor;
      delivered := {};
      jobs := [];
    }

    /** Inserts the delivery key unless it is there, and then the job. */
    method EnqueueDelivery(t: i64, answer: Enqueued) returns (ok: bool)
      requires Valid()
      modifies this`delivered, this`jobs
      ensures Valid() && ok == (answer == Stored)
      ensures jobs == if answer == Refused then old(jobs) else Deliver(old(jobs), t)
    {
      if answer != Refused && t !in delivered {
        delivered := delivered + {t};
        jobs := jobs + [t];
      }
      ok := answer == Stored;
    }

    /** One evaluation of the trigger. */
    method Evaluate(poll: Poll)
      requires Valid() && Sound(env)
      modifies this
      ensures Valid()
      ensures State() == Step(Next(env, schedule), Firings(env, schedule), rules, old(State()), poll)
    {
      hide Due, Between, Sound, StepsSucceed;
      var found := DueOccurrences(env, schedule, cursor, poll.now, rules.grace, rules.policy, rules.catchUpLimit);
      if found.Err? {
        return;
      }
      var due := found.value;
      ghost var stored := StoredFrom(poll.answers, 0, |due|);
      var i, enqueuedAll := 0, true;
      while i < |due| && enqueuedAll
        invariant 0 <= i <= |due| && Valid() && cursor == old(cursor)
        invariant enqueuedAll ==> jobs == DeliverAll(old(jobs), due[..i])
        invariant enqueuedAll ==> stored == StoredFrom(poll.answers, i, |due|)
        invariant enqueuedAll ==> AllStored(poll.answers, 0, i)
        invariant !enqueuedAll ==> jobs == DeliverAll(old(jobs), due[..stored]) && !AllStored(poll.answers, 0, |due|)
        decreases |due| - i, enqueuedAll
      {
        assert due[..i + 1][..i] == due[..i];
        enqueuedAll := EnqueueDelivery(due[i], poll.answers(i));
        i := i + 1;
      }
      if !enqueuedAll {
        return;
      }
      if poll.advances {
        cursor := poll.now;
      }
    }

    method EvaluateAll(polls: seq<Poll>)
      requires Valid() && Sound(env)
      modifies this
      ensures Valid()
      ensures State() == Run(Next(env, schedule), Firings(env, schedule), rules, old(State()), polls)
    {
      hide Step, Sound;
      for i := 0 to |polls|
        invariant Valid()
        invariant Run(Next(env, schedule), Firings(env, schedule), rules, State(), polls[i..])
               == Run(Next(env, schedule), Firings(env, schedule), rules, old(State()), polls)
      {
        assert polls[i..][1..] == polls[i + 1..];
        Evaluate(polls[i]);
      }
    }
  }

  // ---------------------------------------------------------------------------------------
  // No occurrence twice
  // ---------------------------------------------------------------------------------------

  ghost predicate Distinct(jobs: seq<i64>) {
    forall i, j | 0 <= i < j < |jobs| :: jobs[i] != jobs[j]
  }

  lemma {:induction false} DeliverAllKeeps(jobs: seq<i64>, list: seq<i64>)
    ensures Distinct(jobs) ==> Distinct(DeliverAll(jobs, list))
    ensures forall t :: t in DeliverAll(jobs, list) <==> t in jobs || t in list
  {
    if list != [] {
      var n := |list| - 1;
      DeliverAllKeeps(jobs, list[..n]);
      assert list == list[..n] + [list[n]];
    }
  }

  /** Whatever the clock, the scans and the storage do, no occurrence is enqueued twice. */
  lemma {:induction false} NeverTwice(next: i64 -> Result<Option<int>, ScheduleError>, fires: i64 -> bool, rules: Rules,
                                      st: TriggerState, polls: seq<Poll>)
    requires Distinct(st.jobs)
    ensures Distinct(Run(next, fires, rules, st, polls).jobs)
    ensures var jobs := Run(next, fires, rules, st, polls).jobs;
            forall i, j | 0 <= i < j < |jobs| :: jobs[i] != jobs[j]
    decreases |polls|
  {
    if polls != [] {
      if Scans(next, fires, st.cursor, polls[0].now) {
        var due := DueAt(fires, rules, st.cursor, polls[0].now);
        DeliverAllKeeps(st.jobs, due[..StoredFrom(polls[0].answers, 0, |due|)]);
      }
      NeverTwice(next, fires, rules, Step(next, fires, rules, st, polls[0]), polls[1..]);
    }
  }

  // ---------------------------------------------------------------------------------------
  // Which occurrences are enqueued
  // ---------------------------------------------------------------------------------------

  /** The policy runs an occurrence of the poll's interval: it is recent, or fewer missed ones than
      the policy's capacity come after it. */
  ghost predicate Chosen(fires: i64 -> bool, rules: Rules, after: i64, now: i64, t: i64) {
    && after < t <= now && fires(t)
    && var clip := MissedUntil(after, now, rules.grace);
       clip < t || |Between(fires, t, clip)| < Capacity(rules.policy, rules.catchUpLimit)
  }

  /** A poll enqueues an occurrence: the scan succeeds, the policy runs it, and the storage has not
      stopped the poll before. */
  ghost predicate Takes(next: i64 -> Result<Option<int>, ScheduleError>, fires: i64 -> bool, rules: Rules,
                        after: i64, poll: Poll, t: i64)
  {
    && Scans(next, fires, after, poll.now)
    && Chosen(fires, rules, after, poll.now, t)
    && var n := |DueAt(fires, rules, after, poll.now)|;
       n - |Between(fires, t, poll.now)| <= StoredFrom(poll.answers, 0, n)
  }

  /** In a strictly increasing list, a suffix cut short holds an element exactly when few enough
      elements follow it, and not too few. */
  lemma SuffixHolds(list: seq<i64>, p: nat, m: nat, n: nat)
    requires p < |list| && n <= m <= |list|
    requires forall i, j | 0 <= i < j < |list| :: list[i] < list[j]
    ensures var rest := |list| - p - 1;
            list[p] in list[|list| - m..][..n] <==> rest < m && m - rest <= n
  {
    var suffix := list[|list| - m..][..n];
    var rest := |list| - p - 1;
    if rest < m && m - rest <= n {
      assert suffix[m - 1 - rest] == list[p];
    }
    if list[p] in suffix {
      var i :| 0 <= i < n && suffix[i] == list[p];
      assert list[|list| - m + i] == list[p];
    }
  }

  /** The due occurrences are the last ones of the interval. */
  lemma DueIsSuffix(fires: i64 -> bool, rules: Rules, after: i64, now: i64)
    requires after <= now
    ensures var all, due := Between(fires, after, now), DueAt(fires, rules, after, now);
            && |due| <= |all| && due == all[|all| - |due|..]
            && var clip := MissedUntil(after, now, rules.grace);
               var missed, capacity := |Between(fires, after, clip)|, Capacity(rules.policy, rules.catchUpLimit);
               now > after ==> |due| == (if missed < capacity then missed else capacity) + |Between(fires, clip, now)|
  {
    if after < now {
      var clip := MissedUntil(after, now, rules.grace);
      BetweenSplit(fires, after, clip, now);
    }
  }

  lemma PlaceOf(fires: i64 -> bool, after: i64, now: i64, t: i64)
    requires after < t <= now && fires(t)
    ensures var p := |Between(fires, after, now)| - |Between(fires, t, now)| - 1;
            0 <= p < |Between(fires, after, now)| && Between(fires, after, now)[p] == t
  {
    BetweenSplit(fires, after, t, now);
  }

  lemma StepTakes(next: i64 -> Result<Option<int>, ScheduleError>, fires: i64 -> bool, rules: Rules,
                  st: TriggerState, poll: Poll, t: i64)
    ensures t in Step(next, fires, rules, st, poll).jobs <==>
              t in st.jobs || Takes(next, fires, rules, st.cursor, poll, t)
  {
    if Scans(next, fires, st.cursor, poll.now) {
      var all, due := Between(fires, st.cursor, poll.now), DueAt(fires, rules, st.cursor, poll.now);
      var n := StoredFrom(poll.answers, 0, |due|);
      DeliverAllKeeps(st.jobs, due[..n]);
      if st.cursor < poll.now {
        DueIsSuffix(fires, rules, st.cursor, poll.now);
        BetweenIsExact(fires, st.cursor, poll.now);
        if st.cursor < t <= poll.now && fires(t) {
          PlaceOf(fires, st.cursor, poll.now, t);
          SuffixHolds(all, |all| - |Between(fires, t, poll.now)| - 1, |due|, n);
          ChosenByCount(fires, rules, st.cursor, poll.now, t);
        } else {
          assert t in due[..n] ==> t in all;
        }
      }
    }
  }

  lemma ChosenByCount(fires: i64 -> bool, rules: Rules, after: i64, now: i64, t: i64)
    requires after < t <= now && fires(t)
    ensures Chosen(fires, rules, after, now, t) <==> |Between(fires, t, now)| < |DueAt(fires, rules, after, now)|
  {
    var clip := MissedUntil(after, now, rules.grace);
    DueIsSuffix(fires, rules, after, now);
    if t <= clip {
      BetweenSplit(fires, t, clip, now);
      BetweenSplit(fires, after, t, clip);
    } else {
      BetweenSplit(fires, clip, t, now);
    }
    hide Due, DueAt;
  }

  /** Some poll of the run takes the occurrence. */
  ghost predicate Taken(next: i64 -> Result<Option<int>, ScheduleError>, fires: i64 -> bool, rules: Rules,
                        st: TriggerState, polls: seq<Poll>, t: i64)
    decreases |polls|
  {
    polls != []
    && (|| Takes(next, fires, rules, st.cursor, polls[0], t)
        || Taken(next, fires, rules, Step(next, fires, rules, st, polls[0]), polls[1..], t))
  }

  /** Exactly what a run enqueues, under any clock and any failures: nothing is lost exactly when some
      poll takes each occurrence. */
  lemma {:induction false} WhatIsEnqueued(next: i64 -> Result<Option<int>, ScheduleError>, fires: i64 -> bool,
                                          rules: Rules, st: TriggerState, polls: seq<Poll>, t: i64)
    ensures t in Run(next, fires, rules, st, polls).jobs <==> t in st.jobs || Taken(next, fires, rules, st, polls, t)
    decreases |polls|
  {
    if polls != [] {
      hide Step, Takes;
      StepTakes(next, fires, rules, st, polls[0], t);
      WhatIsEnqueued(next, fires, rules, Step(next, fires, rules, st, polls[0]), polls[1..], t);
    }
  }

  // ---------------------------------------------------------------------------------------
  // Exactly once
  // ---------------------------------------------------------------------------------------

  function RunEnd(cursor: i64, polls: seq<Poll>): i64 {
    if polls == [] then cursor else polls[|polls| - 1].now
  }

  /** The clock never steps back during the run. */
  predicate Forward(cursor: i64, polls: seq<Poll>)
    decreases |polls|
  {
    polls == [] || (cursor <= polls[0].now && Forward(polls[0].now, polls[1..]))
  }

  /** The storage accepts everything. */
  ghost predicate Healthy(polls: seq<Poll>) {
    forall poll | poll in polls :: poll.advances && forall i: nat :: poll.answers(i) == Stored
  }

  /** A poll leaves nothing behind: nothing is due, or it is found and the policy runs all of it. */
  ghost predicate Complete(next: i64 -> Result<Option<int>, ScheduleError>, fires: i64 -> bool, rules: Rules,
                           after: i64, now: i64)
  {
    || Between(fires, after, now) == []
    || (&& Scans(next, fires, after, now)
        && |Missed(fires, after, now, rules.grace)| <= Capacity(rules.policy, rules.catchUpLimit))
  }

  /** So does every poll of the run, from the cursor at which it starts. */
  ghost predicate AllComplete(next: i64 -> Result<Option<int>, ScheduleError>, fires: i64 -> bool, rules: Rules,
                              cursor: i64, polls: seq<Poll>)
    decreases |polls|
  {
    polls == []
    || (&& Complete(next, fires, rules, cursor, polls[0].now)
        && AllComplete(next, fires, rules,
                       if Scans(next, fires, cursor, polls[0].now) then polls[0].now else cursor, polls[1..]))
  }

  lemma {:induction false} ForwardEnd(cursor: i64, polls: seq<Poll>)
    requires Forward(cursor, polls)
    ensures cursor <= RunEnd(cursor, polls)
    decreases |polls|
  {
    if polls != [] {
      ForwardEnd(polls[0].now, polls[1..]);
    }
  }

  lemma EarlierIsForward(earlier: i64, cursor: i64, polls: seq<Poll>)
    requires earlier <= cursor && Forward(cursor, polls)
    ensures Forward(earlier, polls)
  {
  }

  /** New occurrences are appended as they are. */
  lemma {:induction false} DeliverNew(jobs: seq<i64>, list: seq<i64>)
    requires forall t | t in list :: t !in jobs
    requires forall i, j | 0 <= i < j < |list| :: list[i] < list[j]
    ensures DeliverAll(jobs, list) == jobs + list
  {
    if list != [] {
      var n := |list| - 1;
      DeliverNew(jobs, list[..n]);
      assert list == list[..n] + [list[n]];
      assert forall i | 0 <= i < n :: list[i] < list[n];
      assert list[n] !in list[..n] && list[n] in list;
    }
  }

  lemma {:induction false} StoresAll(answers: nat -> Enqueued, i: nat, n: nat)
    requires i <= n && AllStored(answers, i, n)
    ensures StoredFrom(answers, i, n) == n
    decreases n - i
  {
    if i < n {
      StoresAll(answers, i + 1, n);
    }
  }

  /** A poll with a healthy storage that finds what is due. */
  lemma HealthyStep(next: i64 -> Result<Option<int>, ScheduleError>, fires: i64 -> bool, rules: Rules,
                    st: TriggerState, poll: Poll)
    requires st.cursor <= poll.now && Scans(next, fires, st.cursor, poll.now) && Healthy([poll])
    requires forall t | t in st.jobs :: t <= st.cursor
    ensures Step(next, fires, rules, st, poll)
         == TriggerState(poll.now, st.jobs + DueAt(fires, rules, st.cursor, poll.now))
    ensures forall t | t in DueAt(fires, rules, st.cursor, poll.now) :: st.cursor < t <= poll.now
    ensures var all, due := Between(fires, st.cursor, poll.now), DueAt(fires, rules, st.cursor, poll.now);
            |due| <= |all| && (due == all <==> |due| == |all|)
            && (|due| == |all| <==>
                  || all == []
                  || |Missed(fires, st.cursor, poll.now, rules.grace)| <= Capacity(rules.policy, rules.catchUpLimit))
  {
    assert poll in [poll];
    var all, due := Between(fires, st.cursor, poll.now), DueAt(fires, rules, st.cursor, poll.now);
    StoresAll(poll.answers, 0, |due|);
    assert due[..|due|] == due;
    DueIsSuffix(fires, rules, st.cursor, poll.now);
    BetweenIsExact(fires, st.cursor, poll.now);
    assert forall t | t in due :: t in all;
    DeliverNew(st.jobs, due);
    if st.cursor < poll.now {
      BetweenSplit(fires, st.cursor, MissedUntil(st.cursor, poll.now, rules.grace), poll.now);
    }
  }

  /** Under a clock that never steps back a scan that failed fails at every later poll: the trigger
      never moves again. */
  lemma {:induction false} FailedScanIsForGood(next: i64 -> Result<Option<int>, ScheduleError>, fires: i64 -> bool,
                                               rules: Rules, st: TriggerState, now: i64, polls: seq<Poll>)
    requires !Scans(next, fires, st.cursor, now) && Forward(now, polls)
    ensures Run(next, fires, rules, st, polls) == st
    decreases |polls|
  {
    if polls != [] {
      LargerScanFails(next, fires, st.cursor, now, polls[0].now);
      FailedScanIsForGood(next, fires, rules, st, polls[0].now, polls[1..]);
    }
  }

  lemma LargerScanFails(next: i64 -> Result<Option<int>, ScheduleError>, fires: i64 -> bool, after: i64, now: i64,
                        later: i64)
    requires !Scans(next, fires, after, now) && now <= later
    ensures !Scans(next, fires, after, later)
  {
    BetweenSplit(fires, after, now, later);
  }

  lemma {:induction false} RunLength(next: i64 -> Result<Option<int>, ScheduleError>, fires: i64 -> bool, rules: Rules,
                                     st: TriggerState, polls: seq<Poll>)
    requires Forward(st.cursor, polls) && Healthy(polls) && forall t | t in st.jobs :: t <= st.cursor
    ensures |Run(next, fires, rules, st, polls).jobs|
            <= |st.jobs| + |Between(fires, st.cursor, RunEnd(st.cursor, polls))|
    decreases |polls|
  {
    if polls != [] {
      hide Step, Due, DueAt, Scans;
      var end := RunEnd(st.cursor, polls);
      ForwardEnd(polls[0].now, polls[1..]);
      BetweenSplit(fires, st.cursor, polls[0].now, end);
      if Scans(next, fires, st.cursor, polls[0].now) {
        assert polls[0] in polls;
        HealthyStep(next, fires, rules, st, polls[0]);
        RunLength(next, fires, rules, Step(next, fires, rules, st, polls[0]), polls[1..]);
      } else {
        StillThere(next, fires, rules, st, polls);
      }
    }
  }

  lemma StillThere(next: i64 -> Result<Option<int>, ScheduleError>, fires: i64 -> bool, rules: Rules,
                   st: TriggerState, polls: seq<Poll>)
    requires polls != [] && Forward(st.cursor, polls) && !Scans(next, fires, st.cursor, polls[0].now)
    ensures Run(next, fires, rules, st, polls) == st
  {
    FailedScanIsForGood(next, fires, rules, st, polls[0].now, polls[1..]);
  }

  lemma Extended(jobs: seq<i64>, due: seq<i64>, all: seq<i64>, rest: seq<i64>, result: seq<i64>)
    requires |due| <= |all| && (due == all <==> |due| == |all|) && |result| <= |jobs + due| + |rest|
    ensures result == jobs + (all + rest) <==> due == all && result == jobs + due + rest
  {
    assert jobs + (all + rest) == jobs + all + rest;
  }

  /** Exactly-once scheduling: under a clock that never steps back and a healthy storage, a run of
      polls enqueues every occurrence of its interval once and in order, if and only if every poll
      is complete. */
  lemma {:induction false} ExactlyOnce(next: i64 -> Result<Option<int>, ScheduleError>, fires: i64 -> bool,
                                       rules: Rules, st: TriggerState, polls: seq<Poll>)
    requires Forward(st.cursor, polls) && Healthy(polls) && forall t | t in st.jobs :: t <= st.cursor
    ensures Run(next, fires, rules, st, polls).jobs == st.jobs + Between(fires, st.cursor, RunEnd(st.cursor, polls))
       <==> AllComplete(next, fires, rules, st.cursor, polls)
    decreases |polls|
  {
    if polls == [] {
      assert st.jobs + [] == st.jobs;
    } else {
      hide Step, DueAt, Scans, Missed, Between, Capacity;
      var here, end := polls[0].now, RunEnd(st.cursor, polls);
      ForwardEnd(here, polls[1..]);
      BetweenSplit(fires, st.cursor, here, end);
      assert polls[0] in polls;
      if Scans(next, fires, st.cursor, here) {
        HealthyStep(next, fires, rules, st, polls[0]);
        var after := Step(next, fires, rules, st, polls[0]);
        RunLength(next, fires, rules, after, polls[1..]);
        ExactlyOnce(next, fires, rules, after, polls[1..]);
        Extended(st.jobs, DueAt(fires, rules, st.cursor, here), Between(fires, st.cursor, here),
                 Between(fires, here, end), Run(next, fires, rules, st, polls).jobs);
      } else {
        StillThere(next, fires, rules, st, polls);
        EarlierIsForward(st.cursor, here, polls[1..]);
        ExactlyOnce(next, fires, rules, st, polls[1..]);
        StillThere(next, fires, rules, st, [polls[0]]);
        assert Run(next, fires, rules, st, polls) == Run(next, fires, rules, st, polls[1..]);
      }
    }
  }

  // ---------------------------------------------------------------------------------------
  // Polls close enough together
  // ---------------------------------------------------------------------------------------

  predicate GapsWithin(cursor: i64, polls: seq<Poll>, grace: u64)
    decreases |polls|
  {
    polls == [] || (polls[0].now - cursor <= EffectiveGrace(grace) && GapsWithin(polls[0].now, polls[1..], grace))
  }

  /** Occurrences lie at least `gap` apart. */
  ghost predicate Spaced(fires: i64 -> bool, gap: nat) {
    forall t: i64, u: i64 | t < u && fires(t) && fires(u) :: u - t >= gap
  }

  lemma {:induction false} SpacedCount(fires: i64 -> bool, gap: nat, lo: i64, hi: i64)
    requires Spaced(fires, gap) && lo <= hi
    ensures Between(fires, lo, hi) != [] ==>
              var list := Between(fires, lo, hi);
              list[|list| - 1] <= hi && lo + 1 + (|list| - 1) * gap <= list[|list| - 1]
    decreases hi - lo
  {
    if lo < hi {
      SpacedCount(fires, gap, lo, hi - 1);
      var list := Between(fires, lo, hi - 1);
      if list != [] && fires(hi) {
        BetweenIsExact(fires, lo, hi - 1);
        assert list[|list| - 1] in list;
        assert |list| * gap == (|list| - 1) * gap + gap;
      }
    }
  }

  lemma {:induction false} SpacedIsBounded(fires: i64 -> bool, gap: nat, lo: i64, hi: i64)
    requires Spaced(fires, gap) && lo <= hi && 0 < gap && hi - lo <= 9_999 * gap
    ensures |Between(fires, lo, hi)| < MAX_OCCURRENCE_SCAN
  {
    SpacedCount(fires, gap, lo, hi);
    var n := |Between(fires, lo, hi)|;
    if n >= MAX_OCCURRENCE_SCAN {
      MulMonotone(9_999, n - 1, gap);
    }
  }

  /** Polling at least once per grace window loses nothing, whatever the policy, when no step fails
      and the window is short for the spacing of the occurrences. */
  lemma {:induction false} FrequentPollsLoseNothing(
    next: i64 -> Result<Option<int>, ScheduleError>, fires: i64 -> bool, rules: Rules, gap: nat,
    cursor: i64, polls: seq<Poll>)
    requires Forward(cursor, polls) && GapsWithin(cursor, polls, rules.grace)
    requires Spaced(fires, gap) && 0 < gap && EffectiveGrace(rules.grace) <= 9_999 * gap
    requires forall t: i64 | cursor <= t <= RunEnd(cursor, polls) :: next(t).Ok?
    ensures AllComplete(next, fires, rules, cursor, polls)
    decreases |polls|
  {
    if polls != [] {
      var here := polls[0].now;
      ForwardEnd(here, polls[1..]);
      SpacedIsBounded(fires, gap, cursor, here);
      FrequentPollsLoseNothing(next, fires, rules, gap, here, polls[1..]);
      assert RecentBoundary(here, rules.grace) <= cursor;
      assert Missed(fires, cursor, here, rules.grace) == [];
    }
  }

  /** The occurrences of an interval schedule lie a period apart. */
  lemma IntervalIsSpaced(env: Environment, anchor: i64, every: u32)
    ensures Spaced(Firings(env, Interval(anchor, every)), every * 1_000)
  {
    var fires := Firings(env, Interval(anchor, every));
    var period: nat := every * 1_000;
    forall t: i64, u: i64 | t < u && fires(t) && fires(u)
      ensures u - t >= period
    {
      var j: nat :| t == anchor + j * period;
      var k: nat :| u == anchor + k * period;
      if k <= j {
        MulMonotone(k, j, period);
      }
      MulMonotone(j + 1, k, period);
    }
  }

  /** With the server's grace window an interval schedule that is polled within it, and does not reach
      the end of the clock, enqueues every occurrence exactly once under every policy. */
  lemma IntervalsLoseNothing(env: Environment, anchor: i64, every: u32, rules: Rules, st: TriggerState,
                             polls: seq<Poll>)
    requires Sound(env) && 0 < every && rules.grace == MISSED_GRACE_MS
    requires Forward(st.cursor, polls) && Healthy(polls) && GapsWithin(st.cursor, polls, rules.grace)
    requires forall t | t in st.jobs :: t <= st.cursor
    requires anchor <= st.cursor && RunEnd(st.cursor, polls) - anchor + every * 1_000 <= I64_MAX
    ensures var s := Interval(anchor, every);
            Run(Next(env, s), Firings(env, s), rules, st, polls).jobs
            == st.jobs + Between(Firings(env, s), st.cursor, RunEnd(st.cursor, polls))
  {
    var s := Interval(anchor, every);
    var period: nat := every * 1_000;
    IntervalIsSpaced(env, anchor, every);
    forall t: i64 | st.cursor <= t <= RunEnd(st.cursor, polls)
      ensures Next(env, s)(t).Ok?
    {
      NextStepOutcome(anchor, period, t);
      DivisionBounds(t - anchor, period);
      assert NextOffset(anchor, period, t) == (t - anchor) / period * period + period;
    }
    hide Sound;
    FrequentPollsLoseNothing(Next(env, s), Firings(env, s), rules, period, st.cursor, polls);
    ExactlyOnce(Next(env, s), Firings(env, s), rules, st, polls);
  }

  // ---------------------------------------------------------------------------------------
  // Too long a downtime
  // ---------------------------------------------------------------------------------------

  /** An interval schedule fires in every window of a period's length after its anchor. */
  lemma FiresEachPeriod(env: Environment, anchor: i64, every: u32, mid: i64, hi: i64)
    requires 0 < every && anchor <= mid && hi == mid + every * 1_000
    ensures Between(Firings(env, Interval(anchor, every)), mid, hi) != []
  {
    var period: nat := every * 1_000;
    var fires := Firings(env, Interval(anchor, every));
    DivisionBounds(mid - anchor, period);
    var j := (mid - anchor) / period + 1;
    var t := anchor + j * period;
    assert j * period == (mid - anchor) / period * period + period;
    assert fires(t);
    BetweenIsExact(fires, mid, hi);
    assert t in Between(fires, mid, hi);
  }

  /** So it fires at least k times in k periods. */
  lemma {:induction false} AtLeast(env: Environment, anchor: i64, every: u32, lo: i64, k: nat, hi: i64)
    requires 0 < every && anchor <= lo && hi == lo + k * (every * 1_000)
    ensures k <= |Between(Firings(env, Interval(anchor, every)), lo, hi)|
    decreases k
  {
    if k > 0 {
      var period: nat := every * 1_000;
      MulMonotone(0, k - 1, period);
      assert k * period == (k - 1) * period + period;
      var mid: i64 := hi - period;
      AtLeast(env, anchor, every, lo, k - 1, mid);
      FiresEachPeriod(env, anchor, every, mid, hi);
      BetweenSplit(Firings(env, Interval(anchor, every)), lo, mid, hi);
    }
  }

  /** After a downtime of 10,000 periods no poll of an interval schedule ever succeeds again: the trigger
      keeps its cursor and enqueues nothing, under every policy, limit and grace window. */
  lemma DowntimeIsFatal(env: Environment, anchor: i64, every: u32, rules: Rules, st: TriggerState, now: i64,
                        polls: seq<Poll>)
    requires 0 < every && anchor <= st.cursor && st.cursor + 10_000 * (every * 1_000) <= now && Forward(now, polls)
    ensures var s := Interval(anchor, every);
            Run(Next(env, s), Firings(env, s), rules, st, polls) == st
  {
    var s := Interval(anchor, every);
    var mid: i64 := st.cursor + 10_000 * (every * 1_000);
    AtLeast(env, anchor, every, st.cursor, 10_000, mid);
    BetweenSplit(Firings(env, s), st.cursor, mid, now);
    FailedScanIsForGood(Next(env, s), Firings(env, s), rules, st, now, polls);
  }

  // ---------------------------------------------------------------------------------------
  // Any clock
  // ---------------------------------------------------------------------------------------

  /** No poll that moves the cursor forward misses more than its policy runs. */
  ghost predicate PolicyKeepsUp(next: i64 -> Result<Option<int>, ScheduleError>, fires: i64 -> bool, rules: Rules,
                                st: TriggerState, polls: seq<Poll>)
    decreases |polls|
  {
    polls == []
    || (var after := Step(next, fires, rules, st, polls[0]);
        && (st.cursor < after.cursor ==>
              |Missed(fires, st.cursor, after.cursor, rules.grace)| <= Capacity(rules.policy, rules.catchUpLimit))
        && PolicyKeepsUp(next, fires, rules, after, polls[1..]))
  }

  /** The latest cursor of a run. */
  ghost function Highest(next: i64 -> Result<Option<int>, ScheduleError>, fires: i64 -> bool, rules: Rules,
                         high: i64, st: TriggerState, polls: seq<Poll>): i64
    decreases |polls|
  {
    if polls == [] then high
    else
      var after := Step(next, fires, rules, st, polls[0]);
      Highest(next, fires, rules, if high < after.cursor then after.cursor else high, after, polls[1..])
  }

  /** Every occurrence up to the latest cursor is enqueued, although clock and storage may have
      failed in between and the cursor may have gone back. */
  lemma {:induction false} NothingSkipped(next: i64 -> Result<Option<int>, ScheduleError>, fires: i64 -> bool,
                                          rules: Rules, low: i64, high: i64, st: TriggerState, polls: seq<Poll>)
    requires low <= high && st.cursor <= high
    requires forall t: i64 | low < t <= high && fires(t) :: t in st.jobs
    requires PolicyKeepsUp(next, fires, rules, st, polls)
    ensures forall t: i64 | low < t <= Highest(next, fires, rules, high, st, polls) && fires(t) ::
              t in Run(next, fires, rules, st, polls).jobs
    decreases |polls|
  {
    if polls != [] {
      var after := Step(next, fires, rules, st, polls[0]);
      forall t: i64 | fires(t) && ((low < t <= high) || (high < t <= after.cursor))
        ensures t in after.jobs
      {
        StepTakes(next, fires, rules, st, polls[0], t);
        if high < t {
          StoresAll(polls[0].answers, 0, |DueAt(fires, rules, st.cursor, polls[0].now)|);
          BetweenSplit(fires, st.cursor, t, polls[0].now);
          MovedMeansChosen(next, fires, rules, st, polls[0], t);
        }
      }
      hide Step, Missed, Capacity;
      NothingSkipped(next, fires, rules, low, if high < after.cursor then after.cursor else high, after, polls[1..]);
    }
  }

  lemma MovedMeansChosen(next: i64 -> Result<Option<int>, ScheduleError>, fires: i64 -> bool, rules: Rules,
                         st: TriggerState, poll: Poll, t: i64)
    requires Scans(next, fires, st.cursor, poll.now) && st.cursor < t <= poll.now && fires(t)
    requires AllStored(poll.answers, 0, |DueAt(fires, rules, st.cursor, poll.now)|)
    requires |Missed(fires, st.cursor, poll.now, rules.grace)| <= Capacity(rules.policy, rules.catchUpLimit)
    ensures Takes(next, fires, rules, st.cursor, poll, t)
  {
    var clip := MissedUntil(st.cursor, poll.now, rules.grace);
    StoresAll(poll.answers, 0, |DueAt(fires, rules, st.cursor, poll.now)|);
    if t <= clip {
      BetweenSplit(fires, st.cursor, t, clip);
      PlaceOf(fires, st.cursor, t, t);
    }
  }
}
