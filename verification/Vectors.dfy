/**
 The vectors a client projection is kept in: find by identifier, replace or append, stable sort
 by a key, and the view of a vector as a map from identifiers to elements.
 */
module Vectors {
  import opened Wrappers

  /** A 128-bit identifier, ordered as a number. */
  type Id = nat

  ghost predicate DistinctIds<T(!new)>(s: seq<T>, id: T -> Id) {
    forall i, j | 0 <= i < j < |s| :: id(s[i]) != id(s[j])
  }

  ghost predicate SortedBy<T(!new)>(s: seq<T>, key: T -> int) {
    forall i, j | 0 <= i < j < |s| :: key(s[i]) <= key(s[j])
  }

  /** A vector as a map: the first element of each identifier. */
  ghost function ById<T(!new)>(s: seq<T>, id: T -> Id): (m: map<Id, T>)
    ensures forall x | x in s :: id(x) in m
    ensures forall k | k in m :: m[k] in s && id(m[k]) == k
    ensures DistinctIds(s, id) ==> forall x | x in s :: m[id(x)] == x
  {
    map x | x in s :: id(x) := s[Position(s, id, id(x))]
  }

  /** The map has an identifier exactly when an element has it, and then it has the first one. */
  lemma ByIdAt<T(!new)>(s: seq<T>, id: T -> Id, k: Id)
    ensures k in ById(s, id) <==> Position(s, id, k) < |s|
    ensures k in ById(s, id) ==> ById(s, id)[k] == s[Position(s, id, k)]
  {
    var p := Position(s, id, k);
    if p < |s| {
      assert s[p] in s;
    }
    if k in ById(s, id) {
      assert ById(s, id)[k] in s;
    }
  }

  lemma PositionCons<T(!new)>(x: T, rest: seq<T>, id: T -> Id, k: Id)
    ensures Position([x] + rest, id, k) == if id(x) == k then 0 else 1 + Position(rest, id, k)
  {
    assert ([x] + rest)[1..] == rest;
  }

  lemma PositionIs<T(!new)>(s: seq<T>, id: T -> Id, k: Id, p: nat)
    requires p <= |s| && (p < |s| ==> id(s[p]) == k)
    requires forall i | 0 <= i < p :: id(s[i]) != k
    ensures Position(s, id, k) == p
  {
  }

  /** A map is the view of a vector of distinct identifiers when it has the vector's elements and no others. */
  lemma ByIdIs<T(!new)>(s: seq<T>, id: T -> Id, m: map<Id, T>)
    requires DistinctIds(s, id)
    requires forall x | x in s :: id(x) in m && m[id(x)] == x
    requires forall k | k in m :: m[k] in s && id(m[k]) == k
    ensures ById(s, id) == m
  {
    var view := ById(s, id);
    forall k
      ensures k in view <==> k in m
      ensures k in view ==> view[k] == m[k]
    {
      if k in view {
        assert view[k] in s;
      }
      if k in m {
        assert m[k] in s;
      }
    }
  }

  // ---------------------------------------------------------------------------------------
  // Find and replace
  // ---------------------------------------------------------------------------------------

  /** Position of the first element with the identifier, or the length. */
  function Position<T(!new)>(s: seq<T>, id: T -> Id, wanted: Id): (p: nat)
    ensures p <= |s|
    ensures p < |s| ==> id(s[p]) == wanted
    ensures forall i | 0 <= i < p :: id(s[i]) != wanted
  {
    if s == [] || id(s[0]) == wanted then 0 else 1 + Position(s[1..], id, wanted)
  }

  /** Replaces the first element with the identifier of `changed`, or appends it. */
  function Upsert<T(!new)>(s: seq<T>, changed: T, id: T -> Id): seq<T> {
    var p := Position(s, id, id(changed));
    if p < |s| then s[p := changed] else s + [changed]
  }

  lemma UpsertDistinct<T(!new)>(s: seq<T>, changed: T, id: T -> Id)
    requires DistinctIds(s, id)
    ensures DistinctIds(Upsert(s, changed, id), id)
    ensures forall i | 0 <= i < |s| && i != Position(s, id, id(changed)) :: id(s[i]) != id(changed)
  {
  }

  /** An upsert moves no first element, and puts the new one where the first of its identifier was. */
  lemma UpsertFirst<T(!new)>(s: seq<T>, changed: T, id: T -> Id, k: Id)
    ensures var r := Upsert(s, changed, id);
            var p, q := Position(s, id, k), Position(r, id, k);
            if k == id(changed) then q < |r| && r[q] == changed
            else (q < |r| <==> p < |s|) && (q < |r| ==> r[q] == s[p])
  {
    var p, at := Position(s, id, k), Position(s, id, id(changed));
    var r := Upsert(s, changed, id);
    PositionIs(r, id, k, if k == id(changed) then at else if p < |s| then p else |r|);
  }

  lemma UpsertAt<T(!new)>(s: seq<T>, changed: T, id: T -> Id, k: Id)
    ensures var before, after := ById(s, id), ById(Upsert(s, changed, id), id);
            && (k in after <==> k == id(changed) || k in before)
            && (k in after ==> after[k] == if k == id(changed) then changed else before[k])
  {
    UpsertFirst(s, changed, id, k);
    ByIdAt(s, id, k);
    ByIdAt(Upsert(s, changed, id), id, k);
  }

  /** On the map view an upsert is a map update. */
  lemma UpsertView<T(!new)>(s: seq<T>, changed: T, id: T -> Id)
    ensures DistinctIds(s, id) ==> DistinctIds(Upsert(s, changed, id), id)
    ensures ById(Upsert(s, changed, id), id) == ById(s, id)[id(changed) := changed]
  {
    if DistinctIds(s, id) {
      UpsertDistinct(s, changed, id);
    }
    forall k
      ensures UpdatedAt(ById(s, id), ById(Upsert(s, changed, id), id), id(changed), changed, k)
    {
      UpsertAt(s, changed, id, k);
    }
    UpdatedEverywhere(ById(s, id), ById(Upsert(s, changed, id), id), id(changed), changed);
  }

  ghost predicate UpdatedAt<T(!new)>(before: map<Id, T>, after: map<Id, T>, at: Id, changed: T, k: Id) {
    (k in after <==> k == at || k in before) && (k in after ==> after[k] == if k == at then changed else before[k])
  }

  lemma UpdatedEverywhere<T(!new)>(before: map<Id, T>, after: map<Id, T>, at: Id, changed: T)
    requires forall k :: UpdatedAt(before, after, at, changed, k)
    ensures after == before[at := changed]
  {
    forall k
      ensures k in after <==> k in before[at := changed]
      ensures k in after ==> after[k] == before[at := changed][k]
    {
      assert UpdatedAt(before, after, at, changed, k);
    }
  }

  /** Keeps the elements with another identifier. */
  function Without<T(!new)>(s: seq<T>, id: T -> Id, removed: Id): (r: seq<T>)
    ensures forall x :: x in r <==> x in s && id(x) != removed
  {
    if s == [] then []
    else if id(s[0]) == removed then Without(s[1..], id, removed)
    else [s[0]] + Without(s[1..], id, removed)
  }

  lemma DistinctCons<T(!new)>(x: T, rest: seq<T>, id: T -> Id)
    ensures DistinctIds([x] + rest, id) <==> DistinctIds(rest, id) && forall y | y in rest :: id(x) != id(y)
  {
    var s := [x] + rest;
    assert forall i | 0 < i < |s| :: s[i] == rest[i - 1] && rest[i - 1] in rest;
    if DistinctIds(s, id) {
      forall i, j | 0 <= i < j < |rest|
        ensures id(rest[i]) != id(rest[j])
      {
        assert s[i + 1] == rest[i] && s[j + 1] == rest[j];
      }
      forall y | y in rest
        ensures id(x) != id(y)
      {
        var j :| 0 <= j < |rest| && rest[j] == y;
        assert s[0] == x && s[j + 1] == y;
      }
    }
  }

  lemma SortedCons<T(!new)>(x: T, rest: seq<T>, key: T -> int)
    ensures SortedBy([x] + rest, key) <==> SortedBy(rest, key) && forall y | y in rest :: key(x) <= key(y)
  {
    var s := [x] + rest;
    assert forall i | 0 < i < |s| :: s[i] == rest[i - 1] && rest[i - 1] in rest;
    if SortedBy(s, key) {
      forall i, j | 0 <= i < j < |rest|
        ensures key(rest[i]) <= key(rest[j])
      {
        assert s[i + 1] == rest[i] && s[j + 1] == rest[j];
      }
      forall y | y in rest
        ensures key(x) <= key(y)
      {
        var j :| 0 <= j < |rest| && rest[j] == y;
        assert s[0] == x && s[j + 1] == y;
      }
    }
  }

  lemma {:induction false} WithoutKeepsOrder<T(!new)>(s: seq<T>, id: T -> Id, removed: Id, key: T -> int)
    ensures DistinctIds(s, id) ==> DistinctIds(Without(s, id, removed), id)
    ensures SortedBy(s, key) ==> SortedBy(Without(s, id, removed), key)
  {
    if s != [] {
      WithoutKeepsOrder(s[1..], id, removed, key);
      assert s == [s[0]] + s[1..];
      DistinctCons(s[0], s[1..], id);
      SortedCons(s[0], s[1..], key);
      DistinctCons(s[0], Without(s[1..], id, removed), id);
      SortedCons(s[0], Without(s[1..], id, removed), key);
      hide DistinctIds, SortedBy;
    }
  }

  /** The first element of another identifier stays the first. */
  lemma {:induction false} WithoutFirst<T(!new)>(s: seq<T>, id: T -> Id, removed: Id, k: Id)
    ensures var r := Without(s, id, removed);
            var p, q := Position(s, id, k), Position(r, id, k);
            if k == removed then q == |r| else (q < |r| <==> p < |s|) && (q < |r| ==> r[q] == s[p])
  {
    if s != [] {
      WithoutFirst(s[1..], id, removed, k);
      var r := Without(s[1..], id, removed);
      if id(s[0]) != removed {
        PositionCons(s[0], r, id, k);
      }
    }
  }

  /** On the map view a removal is the removal of one key. */
  lemma WithoutView<T(!new)>(s: seq<T>, id: T -> Id, removed: Id, key: T -> int)
    ensures DistinctIds(s, id) ==> DistinctIds(Without(s, id, removed), id)
    ensures ById(Without(s, id, removed), id) == ById(s, id) - {removed}
    ensures SortedBy(s, key) ==> SortedBy(Without(s, id, removed), key)
  {
    WithoutKeepsOrder(s, id, removed, key);
    var r := Without(s, id, removed);
    hide Without, DistinctIds, ById, Position;
    forall k
      ensures k in ById(r, id) <==> k != removed && k in ById(s, id)
      ensures k in ById(r, id) ==> ById(r, id)[k] == ById(s, id)[k]
    {
      WithoutFirst(s, id, removed, k);
      ByIdAt(r, id, k);
      ByIdAt(s, id, k);
    }
  }

  /** Replacing the first element of an identifier by another with that identifier is a map update. */
  lemma ReplaceView<T(!new)>(s: seq<T>, id: T -> Id, p: nat, changed: T)
    requires p < |s| && p == Position(s, id, id(changed))
    ensures DistinctIds(s, id) ==> DistinctIds(s[p := changed], id)
    ensures ById(s[p := changed], id) == ById(s, id)[id(changed) := changed]
  {
    UpsertView(s, changed, id);
  }

  lemma ReplaceKeepsOrder<T(!new)>(s: seq<T>, key: T -> int, p: nat, changed: T)
    requires SortedBy(s, key) && p < |s| && key(s[p]) == key(changed)
    ensures SortedBy(s[p := changed], key)
  {
  }

  // ---------------------------------------------------------------------------------------
  // Stable sort
  // ---------------------------------------------------------------------------------------

  /** Where an element goes in front of an already sorted run: before every key not below its own. */
  function InsertionPoint<T(!new)>(x: T, sorted: seq<T>, key: T -> int): (p: nat)
    ensures p <= |sorted|
    ensures forall i | 0 <= i < p :: key(sorted[i]) < key(x)
    ensures p < |sorted| ==> key(x) <= key(sorted[p])
  {
    if sorted == [] || key(x) <= key(sorted[0]) then 0 else 1 + InsertionPoint(x, sorted[1..], key)
  }

  function InsertAt<T>(s: seq<T>, p: nat, x: T): seq<T>
    requires p <= |s|
  {
    s[..p] + [x] + s[p..]
  }

  lemma InsertAtElements<T(!new)>(s: seq<T>, p: nat, x: T)
    requires p <= |s|
    ensures var r := InsertAt(s, p, x);
            && |r| == |s| + 1 && r[p] == x
            && (forall i | 0 <= i < p :: r[i] == s[i])
            && (forall i | p < i < |r| :: r[i] == s[i - 1])
            && multiset(r) == multiset(s) + multiset{x}
  {
    assert s == s[..p] + s[p..];
  }

  function SortByKey<T(!new)>(s: seq<T>, key: T -> int): seq<T> {
    if s == [] then []
    else
      var rest := SortByKey(s[1..], key);
      InsertAt(rest, InsertionPoint(s[0], rest, key), s[0])
  }

  lemma InsertionSorts<T(!new)>(s: seq<T>, x: T, key: T -> int)
    requires SortedBy(s, key)
    ensures SortedBy(InsertAt(s, InsertionPoint(x, s, key), x), key)
  {
    hide InsertAt, InsertionPoint;
    var p := InsertionPoint(x, s, key);
    var r := InsertAt(s, p, x);
    InsertAtElements(s, p, x);
    forall i, j | 0 <= i < j < |r|
      ensures key(r[i]) <= key(r[j])
    {
      assert p < |s| ==> forall k | p <= k < |s| :: key(s[p]) <= key(s[k]);
    }
  }

  lemma {:induction false} SortSorts<T(!new)>(s: seq<T>, key: T -> int)
    ensures SortedBy(SortByKey(s, key), key)
    ensures multiset(SortByKey(s, key)) == multiset(s)
  {
    if s != [] {
      SortSorts(s[1..], key);
      var rest := SortByKey(s[1..], key);
      InsertionSorts(rest, s[0], key);
      InsertAtElements(rest, InsertionPoint(s[0], rest, key), s[0]);
      assert s == [s[0]] + s[1..];
    }
  }

  function WithKey<T(!new)>(s: seq<T>, key: T -> int, k: int): seq<T> {
    if s == [] then []
    else (if key(s[0]) == k then [s[0]] else []) + WithKey(s[1..], key, k)
  }

  lemma {:induction false} WithKeyConcat<T(!new)>(a: seq<T>, b: seq<T>, key: T -> int, k: int)
    ensures WithKey(a + b, key, k) == WithKey(a, key, k) + WithKey(b, key, k)
  {
    if a == [] {
      assert a + b == b;
    } else {
      var first := if key(a[0]) == k then [a[0]] else [];
      assert (a + b)[1..] == a[1..] + b && (a + b)[0] == a[0];
      calc {
        WithKey(a + b, key, k);
        first + WithKey(a[1..] + b, key, k);
        { WithKeyConcat(a[1..], b, key, k); }
        first + (WithKey(a[1..], key, k) + WithKey(b, key, k));
        (first + WithKey(a[1..], key, k)) + WithKey(b, key, k);
        WithKey(a, key, k) + WithKey(b, key, k);
      }
    }
  }

  lemma {:induction false} WithKeyEmpty<T(!new)>(s: seq<T>, key: T -> int, k: int)
    requires forall i | 0 <= i < |s| :: key(s[i]) != k
    ensures WithKey(s, key, k) == []
  {
    if s != [] {
      WithKeyEmpty(s[1..], key, k);
    }
  }

  lemma WithKeyInsert<T(!new)>(s: seq<T>, p: nat, x: T, key: T -> int, k: int)
    requires p <= |s| && forall i | 0 <= i < p :: key(s[i]) != key(x)
    ensures WithKey(InsertAt(s, p, x), key, k) == WithKey([x], key, k) + WithKey(s, key, k)
  {
    var front, back := s[..p], s[p..];
    assert InsertAt(s, p, x) == front + ([x] + back);
    assert s == front + back;
    KeyedApart(front, x, key, k);
    hide InsertAt, WithKey;
    WithKeyConcat(front, [x] + back, key, k);
    WithKeyConcat([x], back, key, k);
    WithKeyConcat(front, back, key, k);
  }

  lemma KeyedApart<T(!new)>(front: seq<T>, x: T, key: T -> int, k: int)
    requires forall i | 0 <= i < |front| :: key(front[i]) != key(x)
    ensures WithKey(front, key, k) == [] || WithKey([x], key, k) == []
  {
    if key(x) == k {
      WithKeyEmpty(front, key, k);
    }
  }

  /** The sort is stable: elements with equal keys keep their order. */
  lemma {:induction false} SortIsStable<T(!new)>(s: seq<T>, key: T -> int, k: int)
    ensures WithKey(SortByKey(s, key), key, k) == WithKey(s, key, k)
  {
    if s != [] {
      SortIsStable(s[1..], key, k);
      var rest := SortByKey(s[1..], key);
      calc {
        WithKey(SortByKey(s, key), key, k);
        WithKey(InsertAt(rest, InsertionPoint(s[0], rest, key), s[0]), key, k);
        { WithKeyInsert(rest, InsertionPoint(s[0], rest, key), s[0], key, k); }
        WithKey([s[0]], key, k) + WithKey(s[1..], key, k);
        { WithKeyConcat([s[0]], s[1..], key, k); assert [s[0]] + s[1..] == s; }
        WithKey(s, key, k);
      }
    }
  }

  lemma {:induction false} SortKeepsIds<T(!new)>(s: seq<T>, key: T -> int, id: T -> Id)
    requires DistinctIds(s, id)
    ensures DistinctIds(SortByKey(s, key), id)
  {
    if s != [] {
      SortKeepsIds(s[1..], key, id);
      SortSorts(s[1..], key);
      var rest := SortByKey(s[1..], key);
      forall i | 0 <= i < |rest|
        ensures id(rest[i]) != id(s[0])
      {
        SameElement(rest, s[1..], i);
      }
      InsertKeepsIds(rest, InsertionPoint(s[0], rest, key), s[0], id);
    }
  }

  lemma SameElement<T(!new)>(a: seq<T>, b: seq<T>, i: nat)
    requires i < |a| && multiset(a) == multiset(b)
    ensures exists j | 0 <= j < |b| :: b[j] == a[i]
  {
    assert a[i] in multiset(a);
    assert a[i] in b;
  }

  lemma InsertKeepsIds<T(!new)>(s: seq<T>, p: nat, x: T, id: T -> Id)
    requires p <= |s| && DistinctIds(s, id)
    requires forall i | 0 <= i < |s| :: id(s[i]) != id(x)
    ensures DistinctIds(InsertAt(s, p, x), id)
  {
    InsertAtElements(s, p, x);
  }

  /** Sorting does not change the map view. */
  lemma SortView<T(!new)>(s: seq<T>, key: T -> int, id: T -> Id)
    requires DistinctIds(s, id)
    ensures DistinctIds(SortByKey(s, key), id)
    ensures ById(SortByKey(s, key), id) == ById(s, id)
    ensures SortedBy(SortByKey(s, key), key)
  {
    SortKeepsIds(s, key, id);
    SortSorts(s, key);
    var r := SortByKey(s, key);
    forall x
      ensures x in r <==> x in s
    {
      assert x in r <==> x in multiset(r);
      assert x in s <==> x in multiset(s);
    }
    ByIdIs(r, id, ById(s, id));
  }

  /** A stable sort of a vector: the same elements in order, those of equal keys as they were. */
  ghost predicate SortedFrom<T(!new)>(r: seq<T>, s: seq<T>, key: T -> int) {
    && SortedBy(r, key) && multiset(r) == multiset(s)
    && forall k: int :: WithKey(r, key, k) == WithKey(s, key, k)
  }

  /** Sorting is stable, and does not change the map view of a vector that has one. */
  lemma SortedView<T(!new)>(s: seq<T>, key: T -> int, id: T -> Id)
    ensures SortedFrom(SortByKey(s, key), s, key)
    ensures SortedBy(SortByKey(s, key), key) && multiset(SortByKey(s, key)) == multiset(s)
    ensures DistinctIds(s, id) ==>
              DistinctIds(SortByKey(s, key), id) && ById(SortByKey(s, key), id) == ById(s, id)
  {
    SortSorts(s, key);
    forall k: int
      ensures WithKey(SortByKey(s, key), key, k) == WithKey(s, key, k)
    {
      SortIsStable(s, key, k);
    }
    if DistinctIds(s, id) {
      SortView(s, key, id);
    }
  }

  /** Upsert followed by a stable sort, the step every keyed change takes. */
  lemma UpsertSortView<T(!new)>(s: seq<T>, changed: T, id: T -> Id, key: T -> int)
    ensures var r := SortByKey(Upsert(s, changed, id), key);
            && SortedBy(r, key) && SortedFrom(r, Upsert(s, changed, id), key)
            && (DistinctIds(s, id) ==>
                  DistinctIds(r, id) && ById(r, id) == ById(s, id)[id(changed) := changed])
  {
    SortedView(Upsert(s, changed, id), key, id);
    if DistinctIds(s, id) {
      UpsertView(s, changed, id);
    }
  }

  /** The entry is in the vector afterwards, and so is every other of another identifier. */
  lemma UpsertIsListed<T(!new)>(s: seq<T>, r: seq<T>, changed: T, id: T -> Id, key: T -> int, at: nat)
    requires SortedFrom(r, Upsert(s, changed, id), key)
    ensures changed in r && forall i, j | 0 <= i < j < |r| :: key(r[i]) <= key(r[j])
    ensures at < |s| && id(s[at]) != id(changed) ==> s[at] in r
  {
    var upserted := Upsert(s, changed, id);
    var p := Position(s, id, id(changed));
    assert upserted[p] == changed && (at < |s| && at != p ==> upserted[at] == s[at]);
    assert forall x :: x in r <==> x in upserted by {
      assert forall x :: (x in multiset(r) <==> x in r) && (x in multiset(upserted) <==> x in upserted);
    }
  }

  lemma WhatSortingKeeps<T(!new)>(r: seq<T>, s: seq<T>, key: T -> int, k: int)
    requires SortedFrom(r, s, key)
    ensures multiset(r) == multiset(s) && WithKey(r, key, k) == WithKey(s, key, k)
    ensures forall i, j | 0 <= i < j < |r| :: key(r[i]) <= key(r[j])
  {
  }

  lemma IdIsListed<T(!new)>(s: seq<T>, id: T -> Id, k: Id)
    ensures k in ById(s, id) <==> exists x :: x in s && id(x) == k
    ensures k in ById(s, id) ==> ById(s, id)[k] in s && id(ById(s, id)[k]) == k
  {
  }

  /** Of one element itself is left when it has the key; with `WithKeyConcat`, that is what `WithKey` is. */
  lemma WithKeyOne<T(!new)>(x: T, key: T -> int, k: int)
    ensures WithKey([x], key, k) == if key(x) == k then [x] else []
  {
  }
}
