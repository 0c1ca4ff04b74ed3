/** Tracking events returned by the parcel lookup and the in-place sort
    `evenements.sort((a, b) => a.date.localeCompare(b.date))`.
    The comparator is modelled as plain lexicographic order on the date strings
    (character by character, a proper prefix first). */
module EventOrder {

  /** One tracking event: its date string and the rest of its payload, kept opaque. */
  datatype Event = Event(date: string, detail: string)

  /** `a` sorts no later than `b`: the comparator returns a value <= 0. */
  predicate DateLe(a: string, b: string)
    decreases |a|
  {
    if a == [] then true
    else if b == [] then false
    else if a[0] != b[0] then a[0] < b[0]
    else DateLe(a[1..], b[1..])
  }

  /** Any two dates are comparable. */
  lemma {:induction false} DateLeTotal(a: string, b: string)
    ensures DateLe(a, b) || DateLe(b, a)
    decreases |a|
  {
    if a != [] && b != [] && a[0] == b[0] { DateLeTotal(a[1..], b[1..]); }
  }

  lemma {:induction false} DateLeTransitive(a: string, b: string, c: string)
    requires DateLe(a, b) && DateLe(b, c)
    ensures DateLe(a, c)
    decreases |a|
  {
    if a != [] && b != [] && c != [] && a[0] == b[0] && b[0] == c[0] {
      DateLeTransitive(a[1..], b[1..], c[1..]);
    }
  }

  lemma {:induction false} DateLeReflexive(a: string)
    ensures DateLe(a, a)
    decreases |a|
  {
    if a != [] { DateLeReflexive(a[1..]); }
  }

  /** Two dates that each sort no later than the other are the same string. */
  lemma {:induction false} DateLeAntisymmetric(a: string, b: string)
    requires DateLe(a, b) && DateLe(b, a)
    ensures a == b
    decreases |a|
  {
    if a != [] {
      DateLeAntisymmetric(a[1..], b[1..]);
      assert a == [a[0]] + a[1..] && b == [b[0]] + b[1..];
    }
  }

  /** Events in ascending date order. */
  predicate SortedByDate(s: seq<Event>) {
    forall k, l :: 0 <= k < l < |s| ==> DateLe(s[k].date, s[l].date)
  }

  /** The events of `s` dated `d`, in their order in `s`. */
  function WithDate(s: seq<Event>, d: string): (r: seq<Event>)
    ensures |r| <= |s|
    ensures forall k :: 0 <= k < |r| ==> r[k].date == d
  {
    if s == [] then []
    else (if s[0].date == d then [s[0]] else []) + WithDate(s[1..], d)
  }

  /** The first event heads the list of its own date. */
  lemma WithDateHead(s: seq<Event>)
    requires s != []
    ensures WithDate(s, s[0].date) == [s[0]] + WithDate(s[1..], s[0].date)
  {
  }

  /** Dropping the first event drops it from its own date's list only. */
  lemma WithDateTail(s: seq<Event>, d: string)
    requires s != []
    ensures WithDate(s[1..], d) == if s[0].date == d then WithDate(s, d)[1..] else WithDate(s, d)
  {
    if s[0].date == d {
      assert WithDate(s, d) == [s[0]] + WithDate(s[1..], d);
    } else {
      assert WithDate(s, d) == [] + WithDate(s[1..], d);
    }
  }

  /** Every event picked out for a date comes from the sequence. */
  lemma {:induction false} WithDateFrom(s: seq<Event>, d: string, e: Event)
    requires e in WithDate(s, d)
    ensures e in s
    decreases |s|
  {
    if s[0] != e {
      WithDateFrom(s[1..], d, e);
    }
  }

  /** `t` lists the events of every date in the same order as `s` does: what a
      stable sort (as `Array.prototype.sort` is) keeps. */
  ghost predicate KeepsDateOrder(s: seq<Event>, t: seq<Event>) {
    forall d :: WithDate(t, d) == WithDate(s, d)
  }

  lemma {:induction false} WithDateAppend(s: seq<Event>, t: seq<Event>, d: string)
    ensures WithDate(s + t, d) == WithDate(s, d) + WithDate(t, d)
    decreases |s|
  {
    if s == [] {
      assert s + t == t;
    } else {
      assert (s + t)[0] == s[0] && (s + t)[1..] == s[1..] + t;
      WithDateAppend(s[1..], t, d);
    }
  }

  lemma WithDatePair(x: Event, y: Event, d: string)
    ensures WithDate([x, y], d) == (if x.date == d then [x] else []) + (if y.date == d then [y] else [])
  {
    assert [x, y][1..] == [y];
    assert [y][1..] == [];
  }

  lemma WithDateSwapMiddle(p: seq<Event>, x: Event, y: Event, q: seq<Event>, d: string)
    requires x.date != y.date
    ensures WithDate(p + [x, y] + q, d) == WithDate(p + [y, x] + q, d)
  {
    WithDateAppend(p + [x, y], q, d);
    WithDateAppend(p, [x, y], d);
    WithDateAppend(p + [y, x], q, d);
    WithDateAppend(p, [y, x], d);
    WithDatePair(x, y, d);
    WithDatePair(y, x, d);
    assert WithDate([x, y], d) == WithDate([y, x], d) by {
      if x.date == d { assert y.date != d; } else if y.date == d { assert x.date != d; }
    }
  }

  /** Swapping two neighbours with different dates keeps the order within every date. */
  lemma SwapKeepsDateOrder(s: seq<Event>, j: nat)
    requires 0 < j < |s|
    requires s[j - 1].date != s[j].date
    ensures KeepsDateOrder(s, s[j - 1 := s[j]][j := s[j - 1]])
  {
    var t := s[j - 1 := s[j]][j := s[j - 1]];
    var p, q := s[..j - 1], s[j + 1..];
    assert s == p + [s[j - 1], s[j]] + q;
    assert t == p + [s[j], s[j - 1]] + q;
    forall d ensures WithDate(t, d) == WithDate(s, d) {
      WithDateSwapMiddle(p, s[j - 1], s[j], q, d);
    }
  }

  /** Sorted by date and stable pin the result down: two sorted sequences that
      keep the same order within every date are equal. */
  lemma {:induction false} SortedKeepingDateOrderIsUnique(r1: seq<Event>, r2: seq<Event>)
    requires SortedByDate(r1) && SortedByDate(r2)
    requires KeepsDateOrder(r1, r2)
    ensures r1 == r2
    decreases |r1|
  {
    if r1 == [] || r2 == [] {
      if r1 != [] {
        WithDateHead(r1);
        assert false;
      }
      if r2 != [] {
        WithDateHead(r2);
        assert false;
      }
    } else {
      var x, y := r1[0], r2[0];
      assert WithDate(r1, x.date) == [x] + WithDate(r1[1..], x.date);
      assert x in WithDate(r2, x.date);
      WithDateFrom(r2, x.date, x);
      var k :| 0 <= k < |r2| && r2[k] == x;
      DateLeReflexive(x.date);
      assert DateLe(y.date, x.date);
      assert WithDate(r2, y.date) == [y] + WithDate(r2[1..], y.date);
      assert y in WithDate(r1, y.date);
      WithDateFrom(r1, y.date, y);
      var m :| 0 <= m < |r1| && r1[m] == y;
      assert DateLe(x.date, y.date);
      DateLeAntisymmetric(x.date, y.date);
      assert WithDate(r2, x.date) == [y] + WithDate(r2[1..], x.date);
      assert WithDate(r1, x.date) == WithDate(r2, x.date);
      assert x == WithDate(r1, x.date)[0] == y;
      forall d ensures WithDate(r2[1..], d) == WithDate(r1[1..], d) {
        WithDateTail(r1, d);
        WithDateTail(r2, d);
      }
      SortedKeepingDateOrderIsUnique(r1[1..], r2[1..]);
      assert r1 == [x] + r1[1..] && r2 == [y] + r2[1..];
    }
  }

  /** Sorts the events in place by ascending date, stably: events with equal dates
      keep their relative order (insertion sort by adjacent swaps). */
  method SortByDate(a: array<Event>)
    modifies a
    ensures SortedByDate(a[..])
    ensures multiset(a[..]) == multiset(old(a[..]))
    ensures KeepsDateOrder(old(a[..]), a[..])
  {
    var i := 0;
    while i < a.Length
      invariant 0 <= i <= a.Length
      invariant SortedByDate(a[..i])
      invariant multiset(a[..]) == multiset(old(a[..]))
      invariant KeepsDateOrder(old(a[..]), a[..])
    {
      InsertLast(a, i);
      i := i + 1;
    }
    assert a[..a.Length] == a[..];
  }

  /** While `a[i]` travels left: the first `i + 1` events are in order once the
      one at `j` is ignored, and the one at `j` is no later than those after it. */
  predicate Inserting(s: seq<Event>, j: nat, i: nat)
    requires j <= i < |s|
  {
    (forall k, l :: 0 <= k < l <= i && k != j && l != j ==> DateLe(s[k].date, s[l].date))
    && (forall l :: j < l <= i ==> DateLe(s[j].date, s[l].date))
  }

  /** Swapping the travelling event with an earlier neighbour that sorts later keeps `Inserting`. */
  lemma SwapKeepsInserting(s: seq<Event>, j: nat, i: nat)
    requires 0 < j <= i < |s|
    requires Inserting(s, j, i)
    requires !DateLe(s[j - 1].date, s[j].date)
    ensures Inserting(s[j - 1 := s[j]][j := s[j - 1]], j - 1, i)
  {
    var t := s[j - 1 := s[j]][j := s[j - 1]];
    DateLeTotal(s[j - 1].date, s[j].date);
    forall l | j - 1 < l <= i
      ensures DateLe(t[j - 1].date, t[l].date)
    {
      if l > j { DateLeTransitive(s[j].date, s[j - 1].date, s[l].date); }
    }
  }

  /** Once the travelling event has met an earlier neighbour no later than itself
      (or reached the front), the first `i + 1` events are sorted. */
  lemma InsertingDone(s: seq<Event>, j: nat, i: nat)
    requires j <= i < |s|
    requires Inserting(s, j, i)
    requires j == 0 || DateLe(s[j - 1].date, s[j].date)
    ensures SortedByDate(s[..i + 1])
  {
    forall k, l | 0 <= k < l <= i
      ensures DateLe(s[k].date, s[l].date)
    {
      if l == j && k < j - 1 {
        DateLeTransitive(s[k].date, s[j - 1].date, s[j].date);
      }
    }
  }

  /** Moves `a[i]` left into place so that `a[..i+1]` is sorted, given that `a[..i]` is. */
  method InsertLast(a: array<Event>, i: nat)
    requires i < a.Length
    requires SortedByDate(a[..i])
    modifies a
    ensures SortedByDate(a[..i + 1])
    ensures a[i + 1..] == old(a[i + 1..])
    ensures multiset(a[..]) == multiset(old(a[..]))
    ensures KeepsDateOrder(old(a[..]), a[..])
  {
    var j := i;
    assert Inserting(a[..], j, i);
    while j > 0 && !DateLe(a[j - 1].date, a[j].date)
      invariant 0 <= j <= i
      invariant Inserting(a[..], j, i)
      invariant a[i + 1..] == old(a[i + 1..])
      invariant multiset(a[..]) == multiset(old(a[..]))
      invariant KeepsDateOrder(old(a[..]), a[..])
    {
      SwapKeepsInserting(a[..], j, i);
      DateLeReflexive(a[j].date);
      SwapKeepsDateOrder(a[..], j);
      ghost var before := a[..];
      a[j - 1], a[j] := a[j], a[j - 1];
      assert a[..] == before[j - 1 := before[j]][j := before[j - 1]];
      assert KeepsDateOrder(before, a[..]);
      j := j - 1;
    }
    InsertingDone(a[..], j, i);
  }
}
