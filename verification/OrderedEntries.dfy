/**
 The one chronological stream a timeline displays: messages, activities and approvals, where a
 Bot's message follows everything that was done to produce it.
 */
module OrderedEntries {
  import opened Wrappers
  import opened MachineInts
  import opened Vectors
  import opened Protocol

  datatype TimelineEntry =
    | MessageEntry(message: MessageSummary)
    | ActivityEntry(activity: ActivitySummary)
    | ApprovalEntry(approval: ApprovalSummary)

  datatype SortKey = SortKey(at: i64, rank: nat, id: Id)

  /** Lexicographic. */
  predicate KeyLess(a: SortKey, b: SortKey) {
    a.at < b.at || (a.at == b.at && (a.rank < b.rank || (a.rank == b.rank && a.id < b.id)))
  }

  predicate KeyAtMost(a: SortKey, b: SortKey) {
    a == b || KeyLess(a, b)
  }

  /** Times of the activities and approvals that belong to a message. */
  function RelatedTimes(message: Id, activities: seq<ActivitySummary>, approvals: seq<ApprovalSummary>): seq<i64> {
    ActivityTimes(message, activities) + ApprovalTimes(message, approvals)
  }

  function ActivityTimes(message: Id, activities: seq<ActivitySummary>): (r: seq<i64>)
    ensures forall t :: t in r <==> exists a :: a in activities && a.messageId == Some(message) && a.startedAt == t
  {
    if activities == [] then []
    else
      var rest := ActivityTimes(message, activities[1..]);
      assert activities == [activities[0]] + activities[1..];
      if activities[0].messageId == Some(message) then [activities[0].startedAt] + rest else rest
  }

  function ApprovalTimes(message: Id, approvals: seq<ApprovalSummary>): (r: seq<i64>)
    ensures forall t :: t in r <==> exists a :: a in approvals && a.messageId == Some(message) && a.createdAt == t
  {
    if approvals == [] then []
    else
      var rest := ApprovalTimes(message, approvals[1..]);
      assert approvals == [approvals[0]] + approvals[1..];
      if approvals[0].messageId == Some(message) then [approvals[0].createdAt] + rest else rest
  }

  function Latest(times: seq<i64>, otherwise: i64): (t: i64)
    ensures times == [] ==> t == otherwise
    ensures times != [] ==> t in times && forall u | u in times :: u <= t
  {
    if times == [] then otherwise
    else if |times| == 1 then times[0]
    else
      var rest := Latest(times[1..], otherwise);
      assert times == [times[0]] + times[1..];
      if times[0] < rest then rest else times[0]
  }

  function EntryKey(entry: TimelineEntry, activities: seq<ActivitySummary>, approvals: seq<ApprovalSummary>): SortKey {
    match entry
    case MessageEntry(message) =>
      if message.author == Bot then
        var relatedAt := Latest(RelatedTimes(message.id, activities, approvals), message.createdAt);
        SortKey(match message.completedAt case Some(t) => t case None => SaturateI64(relatedAt + 1), 3, message.id)
      else SortKey(message.createdAt, 0, message.id)
    case ActivityEntry(activity) => SortKey(activity.startedAt, 1, activity.id)
    case ApprovalEntry(approval) => SortKey(approval.createdAt, 2, approval.id)
  }

  /** Where each kind of entry is displayed: by the time it was made or started, at equal times messages
      before activities before approvals before the Bot's own messages. A Bot's message goes by the time it
      was completed and, until then, right after the latest thing done for it. */
  lemma WhereEntriesGo(entry: TimelineEntry, activities: seq<ActivitySummary>, approvals: seq<ApprovalSummary>)
    ensures var key := EntryKey(entry, activities, approvals);
            match entry
            case ActivityEntry(activity) => key.at == activity.startedAt && key.rank == 1 && key.id == activity.id
            case ApprovalEntry(approval) => key.at == approval.createdAt && key.rank == 2 && key.id == approval.id
            case MessageEntry(message) =>
              && key.id == message.id
              && (message.author != Bot ==> key.at == message.createdAt && key.rank == 0)
              && (message.author == Bot ==> key.rank == 3)
              && (message.author == Bot && message.completedAt.Some? ==> key.at == message.completedAt.value)
    ensures entry.MessageEntry? && entry.message.author == Bot && entry.message.completedAt.None? ==>
              var at, id := EntryKey(entry, activities, approvals).at, entry.message.id;
              && (forall a | a in activities && a.messageId == Some(id) :: a.startedAt < at || at == I64_MAX)
              && (forall a | a in approvals && a.messageId == Some(id) :: a.createdAt < at || at == I64_MAX)
              && ((exists a | a in activities ::
                     a.messageId == Some(id) && at == if a.startedAt == I64_MAX then I64_MAX else a.startedAt + 1)
                  || (exists a | a in approvals ::
                     a.messageId == Some(id) && at == if a.createdAt == I64_MAX then I64_MAX else a.createdAt + 1)
                  || (at == (if entry.message.createdAt == I64_MAX then I64_MAX else entry.message.createdAt + 1)
                      && (forall a | a in activities :: a.messageId != Some(id))
                      && (forall a | a in approvals :: a.messageId != Some(id))))
  {
    if entry.MessageEntry? && entry.message.author == Bot && entry.message.completedAt.None? {
      var id := entry.message.id;
      var times := RelatedTimes(id, activities, approvals);
      var latest := Latest(times, entry.message.createdAt);
      assert forall a | a in activities && a.messageId == Some(id) :: a.startedAt in times;
      assert forall a | a in approvals && a.messageId == Some(id) :: a.createdAt in times;
      if times != [] {
        assert latest in ActivityTimes(id, activities) || latest in ApprovalTimes(id, approvals);
      }
    }
  }

  /** Keys are compared by time, then by rank, then by identifier; they are totally ordered. */
  lemma HowKeysCompare(a: SortKey, b: SortKey, c: SortKey)
    ensures a.at < b.at ==> KeyLess(a, b)
    ensures a.at == b.at && a.rank < b.rank ==> KeyLess(a, b)
    ensures a.at == b.at && a.rank == b.rank && a.id < b.id ==> KeyLess(a, b)
    ensures KeyLess(a, b) || KeyLess(b, a) || a == b
    ensures !(KeyLess(a, b) && KeyLess(b, a)) && !KeyLess(a, a)
    ensures KeyLess(a, b) && KeyLess(b, c) ==> KeyLess(a, c)
  {
  }

  function AsMessage(message: MessageSummary): TimelineEntry { MessageEntry(message) }
  function AsActivity(activity: ActivitySummary): TimelineEntry { ActivityEntry(activity) }
  function AsApproval(approval: ApprovalSummary): TimelineEntry { ApprovalEntry(approval) }

  function Wrapped<T>(s: seq<T>, wrap: T -> TimelineEntry): seq<TimelineEntry> {
    if s == [] then [] else [wrap(s[0])] + Wrapped(s[1..], wrap)
  }

  function Entries(messages: seq<MessageSummary>, activities: seq<ActivitySummary>, approvals: seq<ApprovalSummary>)
    : seq<TimelineEntry>
  {
    Wrapped(messages, AsMessage) + Wrapped(activities, AsActivity) + Wrapped(approvals, AsApproval)
  }

  // ---------------------------------------------------------------------------------------
  // Sorting by a structured key
  // ---------------------------------------------------------------------------------------

  function Slot(x: TimelineEntry, sorted: seq<TimelineEntry>, key: TimelineEntry -> SortKey): (p: nat)
    ensures p <= |sorted|
    ensures forall i | 0 <= i < p :: KeyLess(key(sorted[i]), key(x))
    ensures p < |sorted| ==> KeyAtMost(key(x), key(sorted[p]))
  {
    if sorted == [] || !KeyLess(key(sorted[0]), key(x)) then 0 else 1 + Slot(x, sorted[1..], key)
  }

  /** A stable sort. */
  function SortEntries(s: seq<TimelineEntry>, key: TimelineEntry -> SortKey): seq<TimelineEntry> {
    if s == [] then []
    else
      var rest := SortEntries(s[1..], key);
      InsertAt(rest, Slot(s[0], rest, key), s[0])
  }

  ghost predicate Ascending(s: seq<TimelineEntry>, key: TimelineEntry -> SortKey) {
    forall i, j | 0 <= i < j < |s| :: KeyAtMost(key(s[i]), key(s[j]))
  }

  lemma SlotKeepsAscending(s: seq<TimelineEntry>, x: TimelineEntry, key: TimelineEntry -> SortKey)
    requires Ascending(s, key)
    ensures Ascending(InsertAt(s, Slot(x, s, key), x), key)
  {
    hide InsertAt, Slot;
    var p := Slot(x, s, key);
    InsertAtElements(s, p, x);
    var r := InsertAt(s, p, x);
    forall i, j | 0 <= i < j < |r|
      ensures KeyAtMost(key(r[i]), key(r[j]))
    {
      assert p < |s| ==> forall k | p <= k < |s| :: KeyAtMost(key(s[p]), key(s[k]));
    }
  }

  lemma {:induction false} SortEntriesSorts(s: seq<TimelineEntry>, key: TimelineEntry -> SortKey)
    ensures Ascending(SortEntries(s, key), key)
    ensures multiset(SortEntries(s, key)) == multiset(s)
  {
    if s != [] {
      SortEntriesSorts(s[1..], key);
      var rest := SortEntries(s[1..], key);
      SlotKeepsAscending(rest, s[0], key);
      InsertAtElements(rest, Slot(s[0], rest, key), s[0]);
      assert s == [s[0]] + s[1..];
    }
  }

  ghost predicate DistinctKeys(s: seq<TimelineEntry>, key: TimelineEntry -> SortKey) {
    forall x, y | x in s && y in s && key(x) == key(y) :: x == y
  }

  lemma LeastIsFirst(a: seq<TimelineEntry>, x: TimelineEntry, key: TimelineEntry -> SortKey)
    requires Ascending(a, key) && x in a
    ensures KeyAtMost(key(a[0]), key(x))
  {
    var i :| 0 <= i < |a| && a[i] == x;
  }

  lemma SameRest(a: seq<TimelineEntry>, b: seq<TimelineEntry>)
    requires a != [] && b != [] && a[0] == b[0] && multiset(a) == multiset(b)
    ensures multiset(a[1..]) == multiset(b[1..])
  {
    assert a == [a[0]] + a[1..] && b == [b[0]] + b[1..];
    assert multiset(a[1..]) == multiset(a) - multiset{a[0]};
    assert multiset(b[1..]) == multiset(b) - multiset{b[0]};
  }

  lemma SameFirst(a: seq<TimelineEntry>, b: seq<TimelineEntry>, key: TimelineEntry -> SortKey)
    requires Ascending(a, key) && Ascending(b, key) && multiset(a) == multiset(b) && DistinctKeys(a, key)
    requires a != []
    ensures b != [] && a[0] == b[0]
  {
    assert a[0] in multiset(b);
    assert b[0] in multiset(a);
    LeastIsFirst(a, b[0], key);
    LeastIsFirst(b, a[0], key);
  }

  /** Elements with pairwise different keys have one ascending order. */
  lemma {:induction false} AscendingIsUnique(a: seq<TimelineEntry>, b: seq<TimelineEntry>,
                                             key: TimelineEntry -> SortKey)
    requires Ascending(a, key) && Ascending(b, key) && multiset(a) == multiset(b) && DistinctKeys(a, key)
    ensures a == b
  {
    if a == [] {
      assert |multiset(b)| == 0;
    } else {
      SameFirst(a, b, key);
      SameRest(a, b);
      AscendingIsUnique(a[1..], b[1..], key);
      assert a == [a[0]] + a[1..] && b == [b[0]] + b[1..];
    }
  }

  // ---------------------------------------------------------------------------------------
  // The displayed stream
  // ---------------------------------------------------------------------------------------

  function KeyOf(activities: seq<ActivitySummary>, approvals: seq<ApprovalSummary>): TimelineEntry -> SortKey {
    entry => EntryKey(entry, activities, approvals)
  }

  function Ordered(messages: seq<MessageSummary>, activities: seq<ActivitySummary>, approvals: seq<ApprovalSummary>)
    : seq<TimelineEntry>
  {
    SortEntries(Entries(messages, activities, approvals), KeyOf(activities, approvals))
  }

  /** The stream holds every entry once, in key order. */
  lemma OrderedIsSortedPermutation(
    messages: seq<MessageSummary>, activities: seq<ActivitySummary>, approvals: seq<ApprovalSummary>)
    ensures Ascending(Ordered(messages, activities, approvals), KeyOf(activities, approvals))
    ensures multiset(Ordered(messages, activities, approvals)) == multiset(Entries(messages, activities, approvals))
  {
    SortEntriesSorts(Entries(messages, activities, approvals), KeyOf(activities, approvals));
  }

  /** What has the lesser key is displayed first. */
  lemma LesserKeyComesFirst(
    messages: seq<MessageSummary>, activities: seq<ActivitySummary>, approvals: seq<ApprovalSummary>, i: nat, j: nat)
    requires i < |Ordered(messages, activities, approvals)| && j < |Ordered(messages, activities, approvals)|
    requires var stream := Ordered(messages, activities, approvals);
             KeyLess(EntryKey(stream[i], activities, approvals), EntryKey(stream[j], activities, approvals))
    ensures i < j
  {
    OrderedIsSortedPermutation(messages, activities, approvals);
  }

  /** Two listings of the same things, in whatever order they arrived. */
  ghost predicate SameThings(
    messages: seq<MessageSummary>, activities: seq<ActivitySummary>, approvals: seq<ApprovalSummary>,
    messages': seq<MessageSummary>, activities': seq<ActivitySummary>, approvals': seq<ApprovalSummary>)
  {
    && multiset(messages) == multiset(messages')
    && multiset(activities) == multiset(activities')
    && multiset(approvals) == multiset(approvals')
  }

  lemma SameMembers<T(!new)>(a: seq<T>, b: seq<T>)
    requires multiset(a) == multiset(b)
    ensures forall x :: x in a <==> x in b
  {
    forall x
      ensures x in a <==> x in b
    {
      assert x in a <==> x in multiset(a);
      assert x in b <==> x in multiset(b);
    }
  }

  lemma LatestOfSame(a: seq<i64>, b: seq<i64>, otherwise: i64)
    requires forall t :: t in a <==> t in b
    ensures Latest(a, otherwise) == Latest(b, otherwise)
  {
    assert a == [] || a[0] in b;
    assert b == [] || b[0] in a;
  }

  /** A key depends on what is listed, not on the order it is listed in. */
  lemma KeyIgnoresOrder(entry: TimelineEntry,
                        activities: seq<ActivitySummary>, approvals: seq<ApprovalSummary>,
                        activities': seq<ActivitySummary>, approvals': seq<ApprovalSummary>)
    requires multiset(activities) == multiset(activities') && multiset(approvals) == multiset(approvals')
    ensures EntryKey(entry, activities, approvals) == EntryKey(entry, activities', approvals')
  {
    if entry.MessageEntry? {
      var id := entry.message.id;
      SameMembers(activities, activities');
      SameMembers(approvals, approvals');
      LatestOfSame(RelatedTimes(id, activities, approvals), RelatedTimes(id, activities', approvals'),
                   entry.message.createdAt);
    }
  }

  lemma {:induction false} WrappedCount<T(!new)>(s: seq<T>, wrap: T -> TimelineEntry, x: T)
    requires forall y, z :: wrap(y) == wrap(z) ==> y == z
    ensures multiset(Wrapped(s, wrap))[wrap(x)] == multiset(s)[x]
  {
    if s != [] {
      WrappedCount(s[1..], wrap, x);
      assert s == [s[0]] + s[1..];
    }
  }

  lemma {:induction false} WrappedMember<T(!new)>(s: seq<T>, wrap: T -> TimelineEntry, e: TimelineEntry) returns (x: T)
    requires e in Wrapped(s, wrap)
    ensures x in s && wrap(x) == e
  {
    if e == wrap(s[0]) {
      x := s[0];
    } else {
      x := WrappedMember(s[1..], wrap, e);
    }
  }

  /** Wrapping a permutation gives a permutation. */
  lemma WrappedSame<T(!new)>(a: seq<T>, b: seq<T>, wrap: T -> TimelineEntry)
    requires forall y, z :: wrap(y) == wrap(z) ==> y == z
    requires multiset(a) == multiset(b)
    ensures multiset(Wrapped(a, wrap)) == multiset(Wrapped(b, wrap))
  {
    var wa, wb := multiset(Wrapped(a, wrap)), multiset(Wrapped(b, wrap));
    forall e
      ensures wa[e] == wb[e]
    {
      if e in wa {
        var x := WrappedMember(a, wrap, e);
        WrappedCount(a, wrap, x);
        WrappedCount(b, wrap, x);
      } else if e in wb {
        var x := WrappedMember(b, wrap, e);
        WrappedCount(a, wrap, x);
        WrappedCount(b, wrap, x);
      }
    }
  }

  lemma EntriesHaveDistinctKeys(
    messages: seq<MessageSummary>, activities: seq<ActivitySummary>, approvals: seq<ApprovalSummary>)
    requires DistinctIds(messages, MessageId) && DistinctIds(activities, ActivityId) &&
             DistinctIds(approvals, ApprovalId)
    ensures DistinctKeys(Entries(messages, activities, approvals), KeyOf(activities, approvals))
  {
    var entries := Entries(messages, activities, approvals);
    var key := KeyOf(activities, approvals);
    forall x, y | x in entries && y in entries && key(x) == key(y)
      ensures x == y
    {
      EntryIsListed(messages, activities, approvals, x);
      EntryIsListed(messages, activities, approvals, y);
      assert x.MessageEntry? == y.MessageEntry? && x.ActivityEntry? == y.ActivityEntry?;
      match x
      case MessageEntry(m) => OneWithId(messages, MessageId, m, y.message);
      case ActivityEntry(a) => OneWithId(activities, ActivityId, a, y.activity);
      case ApprovalEntry(a) => OneWithId(approvals, ApprovalId, a, y.approval);
    }
  }

  lemma OneWithId<T(!new)>(s: seq<T>, id: T -> Id, x: T, y: T)
    requires DistinctIds(s, id) && x in s && y in s && id(x) == id(y)
    ensures x == y
  {
    var i :| 0 <= i < |s| && s[i] == x;
    var j :| 0 <= j < |s| && s[j] == y;
  }

  lemma EntryIsListed(messages: seq<MessageSummary>, activities: seq<ActivitySummary>, approvals: seq<ApprovalSummary>,
                      e: TimelineEntry)
    requires e in Entries(messages, activities, approvals)
    ensures match e
            case MessageEntry(m) => m in messages
            case ActivityEntry(a) => a in activities
            case ApprovalEntry(a) => a in approvals
  {
    if e in Wrapped(messages, AsMessage) {
      var m := WrappedMember(messages, AsMessage, e);
    } else if e in Wrapped(activities, AsActivity) {
      var a := WrappedMember(activities, AsActivity, e);
    } else {
      var a := WrappedMember(approvals, AsApproval, e);
    }
  }

  /** The displayed stream does not depend on the order of arrival. */
  lemma OrderedIgnoresArrival(
    messages: seq<MessageSummary>, activities: seq<ActivitySummary>, approvals: seq<ApprovalSummary>,
    messages': seq<MessageSummary>, activities': seq<ActivitySummary>, approvals': seq<ApprovalSummary>)
    requires DistinctIds(messages, MessageId) && DistinctIds(activities, ActivityId) &&
             DistinctIds(approvals, ApprovalId)
    requires SameThings(messages, activities, approvals, messages', activities', approvals')
    ensures Ordered(messages, activities, approvals) == Ordered(messages', activities', approvals')
  {
    var key, key' := KeyOf(activities, approvals), KeyOf(activities', approvals');
    var here, there := Ordered(messages, activities, approvals), Ordered(messages', activities', approvals');
    OrderedIsSortedPermutation(messages, activities, approvals);
    OrderedIsSortedPermutation(messages', activities', approvals');
    WrappedSame(messages, messages', AsMessage);
    WrappedSame(activities, activities', AsActivity);
    WrappedSame(approvals, approvals', AsApproval);
    forall e
      ensures key(e) == key'(e)
    {
      KeyIgnoresOrder(e, activities, approvals, activities', approvals');
    }
    EntriesHaveDistinctKeys(messages, activities, approvals);
    SameMembers(here, Entries(messages, activities, approvals));
    AscendingIsUnique(here, there, key);
  }

  /** While a Bot's message is unfinished, everything done for it is displayed before it, even when
      the clock of the latest such thing is at the end of its range. */
  lemma UnfinishedBotMessageComesLast(
    messages: seq<MessageSummary>, activities: seq<ActivitySummary>, approvals: seq<ApprovalSummary>,
    message: MessageSummary, i: nat, j: nat)
    requires message.author == Bot && message.completedAt == None
    requires i < |Ordered(messages, activities, approvals)| && j < |Ordered(messages, activities, approvals)|
    requires Ordered(messages, activities, approvals)[j] == MessageEntry(message)
    requires match Ordered(messages, activities, approvals)[i]
             case ActivityEntry(a) => a.messageId == Some(message.id)
             case ApprovalEntry(a) => a.messageId == Some(message.id)
             case MessageEntry(_) => false
    ensures i < j
  {
    var stream := Ordered(messages, activities, approvals);
    OrderedIsSortedPermutation(messages, activities, approvals);
    SameMembers(stream, Entries(messages, activities, approvals));
    assert stream[i] in stream;
    EntryIsListed(messages, activities, approvals, stream[i]);
    var key := KeyOf(activities, approvals);
    var times := RelatedTimes(message.id, activities, approvals);
    assert key(stream[i]).at in times;
    assert KeyLess(key(stream[i]), key(stream[j]));
  }
}
