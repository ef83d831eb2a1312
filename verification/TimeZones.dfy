/**
 A time zone as the table the IANA database compiles to: a base offset and the instants at
 which the offset changes. Instants and wall-clock readings are milliseconds; a wall-clock
 reading counts from the local epoch, so day `d` starts at reading `d * 86_400_000`.
 */
module TimeZones {
  import opened Wrappers

  datatype Transition = Transition(at: int, offset: int)

  datatype Zone = Zone(base: int, transitions: seq<Transition>)

  /** What a wall-clock reading stands for. */
  datatype LocalResult = NoInstant | Single(instant: int) | Ambiguous(first: int, second: int)

  /** Offset in force during the `i`-th span; span 0 precedes every transition. */
  function OffsetOf(z: Zone, i: nat): int
    requires i <= |z.transitions|
  {
    if i == 0 then z.base else z.transitions[i - 1].offset
  }

  predicate InSpan(z: Zone, i: nat, t: int)
    requires i <= |z.transitions|
  {
    && (i == 0 || z.transitions[i - 1].at <= t)
    && (i == |z.transitions| || t < z.transitions[i].at)
  }

  /** Offsets are shorter than a day and the transitions are in order. */
  ghost predicate WellFormed(z: Zone) {
    && (forall i | 0 <= i <= |z.transitions| :: -86_400_000 < OffsetOf(z, i) < 86_400_000)
    && (forall i, j | 0 <= i < j < |z.transitions| :: z.transitions[i].at < z.transitions[j].at)
  }

  /** The wall-clock reading with which the `i`-th span starts. */
  function StartReading(z: Zone, i: nat): int
    requires 0 < i <= |z.transitions|
  {
    z.transitions[i - 1].at + z.transitions[i - 1].offset
  }

  /** No span starts with an earlier reading than a span before it: no clock is set back by more
      than the time since its previous change. */
  ghost predicate Settled(z: Zone) {
    forall i, j | 0 < i < j <= |z.transitions| :: StartReading(z, i) <= StartReading(z, j)
  }

  function SpanFrom(z: Zone, t: int, i: nat): (r: nat)
    requires i <= |z.transitions|
    ensures i <= r <= |z.transitions|
    decreases |z.transitions| - i
  {
    if i == |z.transitions| || t < z.transitions[i].at then i else SpanFrom(z, t, i + 1)
  }

  /** The wall-clock reading at an instant. */
  function LocalAt(z: Zone, t: int): int {
    t + OffsetOf(z, SpanFrom(z, t, 0))
  }

  /** The local day of an instant. */
  function LocalDay(z: Zone, t: int): (day: int)
    ensures day * 86_400_000 <= LocalAt(z, t) < day * 86_400_000 + 86_400_000
  {
    LocalAt(z, t) / 86_400_000
  }

  lemma {:induction false} SpanFromFinds(z: Zone, t: int, i: nat)
    requires WellFormed(z) && i <= |z.transitions|
    requires i == 0 || z.transitions[i - 1].at <= t
    ensures InSpan(z, SpanFrom(z, t, i), t)
    decreases |z.transitions| - i
  {
    if !(i == |z.transitions| || t < z.transitions[i].at) {
      SpanFromFinds(z, t, i + 1);
    }
  }

  /** Spans partition the instants, so any span holding `t` gives its wall-clock reading. */
  lemma LocalInSpan(z: Zone, i: nat, t: int)
    requires WellFormed(z) && i <= |z.transitions| && InSpan(z, i, t)
    ensures SpanFrom(z, t, 0) == i
    ensures LocalAt(z, t) == t + OffsetOf(z, i)
  {
    SpanFromFinds(z, t, 0);
  }

  /** The wall clock runs at the base offset before the first transition, and from each transition to the
      next at the offset that one sets. */
  lemma ReadingsFollowTheTable(z: Zone, t: int, i: nat)
    requires WellFormed(z)
    ensures (z.transitions == [] || t < z.transitions[0].at) ==> LocalAt(z, t) == t + z.base
    ensures i < |z.transitions| && z.transitions[i].at <= t
            && (i + 1 == |z.transitions| || t < z.transitions[i + 1].at) ==>
              LocalAt(z, t) == t + z.transitions[i].offset
  {
    if z.transitions == [] || t < z.transitions[0].at {
      LocalInSpan(z, 0, t);
    }
    if i < |z.transitions| && InSpan(z, i + 1, t) {
      LocalInSpan(z, i + 1, t);
    }
  }

  /** A reading that the wall clock shows after having shown a later one is a repetition. */
  lemma RepeatedReading(z: Zone, t1: int, t2: int) returns (t0: int)
    requires WellFormed(z) && Settled(z)
    requires t1 < t2 && LocalAt(z, t2) <= LocalAt(z, t1)
    ensures t0 <= t1 && LocalAt(z, t0) == LocalAt(z, t2)
  {
    SpanFromFinds(z, t1, 0);
    SpanFromFinds(z, t2, 0);
    var i, j := SpanFrom(z, t1, 0), SpanFrom(z, t2, 0);
    t0 := LocalAt(z, t2) - OffsetOf(z, i);
    assert 0 < i < j ==> StartReading(z, i) <= StartReading(z, j);
    LocalInSpan(z, i, t0);
  }

  /** The first span, from the `i`-th on, in which the wall clock shows `reading`. */
  function FirstSpanShowing(z: Zone, reading: int, i: nat): (r: Option<nat>)
    requires i <= |z.transitions| + 1
    ensures r.Some? ==> i <= r.value <= |z.transitions|
    decreases |z.transitions| + 1 - i
  {
    if i == |z.transitions| + 1 then None
    else if InSpan(z, i, reading - OffsetOf(z, i)) then Some(i)
    else FirstSpanShowing(z, reading, i + 1)
  }

  /** The instants at which the wall clock shows `reading`. */
  function FromLocal(z: Zone, reading: int): LocalResult {
    match FirstSpanShowing(z, reading, 0)
    case None => NoInstant
    case Some(i) =>
      match FirstSpanShowing(z, reading, i + 1)
      case None => Single(reading - OffsetOf(z, i))
      case Some(j) => Ambiguous(reading - OffsetOf(z, i), reading - OffsetOf(z, j))
  }

  /** The instant chosen for a wall-clock reading: none in a gap, the earlier one in an overlap. */
  function ChosenInstant(z: Zone, reading: int): Option<int> {
    match FromLocal(z, reading)
    case NoInstant => None
    case Single(t) => Some(t)
    case Ambiguous(first, second) => Some(if first <= second then first else second)
  }

  lemma {:induction false} FirstSpanFound(z: Zone, reading: int, i: nat, k: nat)
    requires i <= k <= |z.transitions|
    ensures var r := FirstSpanShowing(z, reading, i);
            && (r.Some? ==> InSpan(z, r.value, reading - OffsetOf(z, r.value)))
            && (InSpan(z, k, reading - OffsetOf(z, k)) ==> r.Some? && r.value <= k)
    decreases |z.transitions| - i
  {
    if !InSpan(z, i, reading - OffsetOf(z, i)) && i < |z.transitions| {
      FirstSpanFound(z, reading, i + 1, if k == i then i + 1 else k);
    }
  }

  lemma SpansOrdered(z: Zone, i: nat, j: nat, s: int, t: int)
    requires WellFormed(z) && i < j <= |z.transitions| && InSpan(z, i, s) && InSpan(z, j, t)
    ensures s < t
  {
    assert i == j - 1 || z.transitions[i].at < z.transitions[j - 1].at;
  }

  lemma SpanShows(z: Zone, reading: int, t: int)
    requires WellFormed(z) && LocalAt(z, t) == reading
    ensures FirstSpanShowing(z, reading, 0).Some?
    ensures reading - OffsetOf(z, FirstSpanShowing(z, reading, 0).value) <= t
  {
    SpanFromFinds(z, t, 0);
    var k := SpanFrom(z, t, 0);
    assert t == reading - OffsetOf(z, k);
    FirstSpanFound(z, reading, 0, k);
    var i := FirstSpanShowing(z, reading, 0).value;
    if i < k {
      SpansOrdered(z, i, k, reading - OffsetOf(z, i), t);
    }
  }

  lemma ChosenIsFirstSpan(z: Zone, reading: int)
    requires WellFormed(z)
    ensures match FirstSpanShowing(z, reading, 0)
            case None => ChosenInstant(z, reading) == None
            case Some(i) => ChosenInstant(z, reading) == Some(reading - OffsetOf(z, i))
  {
    var first := FirstSpanShowing(z, reading, 0);
    if first.Some? {
      FirstSpanFound(z, reading, 0, first.value);
      var again := FirstSpanShowing(z, reading, first.value + 1);
      if again.Some? {
        FirstSpanFound(z, reading, first.value + 1, again.value);
        SpansOrdered(z, first.value, again.value,
                     reading - OffsetOf(z, first.value), reading - OffsetOf(z, again.value));
      }
    }
  }

  /** The chosen instant is the first one at which the wall clock shows the reading, and there
      is none only when the clock never shows it. */
  lemma ChosenIsEarliest(z: Zone, reading: int)
    requires WellFormed(z)
    ensures match ChosenInstant(z, reading)
            case None => forall t: int :: LocalAt(z, t) != reading
            case Some(c) => LocalAt(z, c) == reading && forall t: int :: LocalAt(z, t) == reading ==> c <= t
  {
    ChosenIsFirstSpan(z, reading);
    if ChosenInstant(z, reading).Some? {
      var i := FirstSpanShowing(z, reading, 0).value;
      FirstSpanFound(z, reading, 0, i);
      LocalInSpan(z, i, reading - OffsetOf(z, i));
    }
    forall t: int | LocalAt(z, t) == reading
      ensures ChosenInstant(z, reading).Some? && ChosenInstant(z, reading).value <= t
    {
      SpanShows(z, reading, t);
    }
  }
}
