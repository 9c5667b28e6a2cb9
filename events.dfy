/**
 * Data events as the backtest buffer sees them, and the order in which
 * SortStream arranges them: ascending timestamp, ties broken by ascending
 * symbol.
 */
module Events {

  datatype Option<+T> = None | Some(value: T)

  /**
   * A data event. The buffer only ever asks an event for its timestamp and
   * its symbol; everything else it carries is opaque, represented by `id`.
   * The timestamp is an integer instant (Go's time.Time reduced to its
   * ordering).
   */
  datatype Event = Event(time: int, symbol: string, id: int)

  /** Go's `<` on strings: lexicographic, shorter prefix first. */
  predicate StringLess(a: string, b: string)
  {
    if a == [] then b != []
    else if b == [] then false
    else if a[0] != b[0] then a[0] < b[0]
    else StringLess(a[1..], b[1..])
  }

  /** Go's `<=` on strings. */
  predicate StringLessEq(a: string, b: string)
  {
    a == b || StringLess(a, b)
  }

  lemma {:induction false} StringLessIrreflexive(a: string)
    ensures !StringLess(a, a)
  {
    if a != [] {
      StringLessIrreflexive(a[1..]);
    }
  }

  lemma {:induction false} StringLessAsymmetric(a: string, b: string)
    ensures !(StringLess(a, b) && StringLess(b, a))
  {
    if a != [] && b != [] && a[0] == b[0] {
      StringLessAsymmetric(a[1..], b[1..]);
    }
  }

  lemma {:induction false} StringLessTransitive(a: string, b: string, c: string)
    requires StringLess(a, b) && StringLess(b, c)
    ensures StringLess(a, c)
  {
    if a != [] && b != [] && c != [] && a[0] == b[0] && b[0] == c[0] {
      StringLessTransitive(a[1..], b[1..], c[1..]);
    }
  }

  /** Any two different strings are ordered one way or the other. */
  lemma {:induction false} StringLessConnected(a: string, b: string)
    requires a != b
    ensures StringLess(a, b) || StringLess(b, a)
  {
    if a != [] && b != [] && a[0] == b[0] {
      assert a == [a[0]] + a[1..] && b == [b[0]] + b[1..];
      StringLessConnected(a[1..], b[1..]);
    }
  }

  /**
   * The less function SortStream hands to sort.Slice: equal timestamps are
   * ordered by symbol, otherwise the earlier timestamp comes first.
   */
  predicate Less(a: Event, b: Event)
  {
    if a.time == b.time then StringLess(a.symbol, b.symbol) else a.time < b.time
  }

  /** The order an adjacent pair may have once the stream is sorted. */
  predicate InOrder(a: Event, b: Event)
  {
    a.time < b.time || (a.time == b.time && StringLessEq(a.symbol, b.symbol))
  }

  /** Two events that Less cannot tell apart: same timestamp and symbol. */
  predicate SameKey(a: Event, b: Event)
  {
    a.time == b.time && a.symbol == b.symbol
  }

  /**
   * Less is a strict weak order, as sort.Slice requires of its less
   * function: irreflexive, transitive, and two events are incomparable
   * exactly when they share timestamp and symbol.
   */
  lemma LessIsStrictWeakOrder(a: Event, b: Event, c: Event)
    ensures !Less(a, a)
    ensures Less(a, b) && Less(b, c) ==> Less(a, c)
    ensures (!Less(a, b) && !Less(b, a)) <==> SameKey(a, b)
  {
    StringLessIrreflexive(a.symbol);
    if Less(a, b) && Less(b, c) && a.time == b.time == c.time {
      StringLessTransitive(a.symbol, b.symbol, c.symbol);
    }
    if a.time == b.time && a.symbol != b.symbol {
      StringLessConnected(a.symbol, b.symbol);
    }
  }

  /** An adjacent pair is in order exactly when Less does not swap it. */
  lemma InOrderIffNotLess(a: Event, b: Event)
    ensures InOrder(a, b) <==> !Less(b, a)
  {
    StringLessIrreflexive(a.symbol);
    StringLessAsymmetric(a.symbol, b.symbol);
    if a.time == b.time && a.symbol != b.symbol {
      StringLessConnected(a.symbol, b.symbol);
    }
  }

  lemma InOrderTransitive(a: Event, b: Event, c: Event)
    requires InOrder(a, b) && InOrder(b, c)
    ensures InOrder(a, c)
  {
    if a.time == b.time == c.time && StringLess(a.symbol, b.symbol) && StringLess(b.symbol, c.symbol) {
      StringLessTransitive(a.symbol, b.symbol, c.symbol);
    }
  }

  /** Every adjacent pair is in order. */
  predicate Sorted(s: seq<Event>)
  {
    forall i :: 0 <= i < |s| - 1 ==> InOrder(s[i], s[i + 1])
  }

  /** No two events share timestamp and symbol. */
  predicate DistinctKeys(s: seq<Event>)
  {
    forall i, j :: 0 <= i < j < |s| ==> !SameKey(s[i], s[j])
  }

  /** In a sorted sequence the first event is in order with every later one. */
  lemma {:induction false} SortedHeadFirst(s: seq<Event>, j: int)
    requires Sorted(s) && 0 <= j < |s|
    ensures InOrder(s[0], s[j])
  {
    if j == 0 {
      StringLessIrreflexive(s[0].symbol);
    } else if j == 1 {
    } else {
      SortedHeadFirst(s, j - 1);
      InOrderTransitive(s[0], s[j - 1], s[j]);
    }
  }

  /** Two events each in order with the other share timestamp and symbol. */
  lemma InOrderAntisymmetric(a: Event, b: Event)
    requires InOrder(a, b) && InOrder(b, a)
    ensures SameKey(a, b)
  {
    StringLessAsymmetric(a.symbol, b.symbol);
  }

  /** Two sorted permutations of events with distinct keys start with the same event. */
  lemma SortedPermutationsSameHead(a: seq<Event>, b: seq<Event>)
    requires Sorted(a) && Sorted(b) && DistinctKeys(a)
    requires multiset(a) == multiset(b) && a != []
    ensures b != [] && b[0] == a[0]
  {
    assert a[0] in multiset(b);
    var j :| 0 <= j < |b| && b[j] == a[0];
    assert b[0] in multiset(a);
    var i :| 0 <= i < |a| && a[i] == b[0];
    SortedHeadFirst(b, j);
    SortedHeadFirst(a, i);
    InOrderAntisymmetric(a[0], a[i]);
    assert i == 0;
  }

  lemma MultisetOfTail(s: seq<Event>)
    requires s != []
    ensures multiset(s[1..]) == multiset(s) - multiset{s[0]}
  {
    assert s == [s[0]] + s[1..];
  }

  /**
   * sort.Slice is not stable, but when no two events share timestamp and
   * symbol the sorted order is fully determined: any two sorted
   * permutations of the same events are equal.
   */
  lemma {:induction false} SortedPermutationUnique(a: seq<Event>, b: seq<Event>)
    requires Sorted(a) && Sorted(b) && DistinctKeys(a)
    requires multiset(a) == multiset(b)
    ensures a == b
  {
    if a == [] {
      assert |b| == |multiset(b)| == 0;
    } else {
      SortedPermutationsSameHead(a, b);
      MultisetOfTail(a);
      MultisetOfTail(b);
      assert Sorted(a[1..]) && Sorted(b[1..]) by {
        assert forall i :: 0 <= i < |a| - 1 ==> a[1..][i] == a[i + 1];
        assert forall i :: 0 <= i < |b| - 1 ==> b[1..][i] == b[i + 1];
      }
      assert DistinctKeys(a[1..]) by {
        assert forall i :: 0 <= i < |a| - 1 ==> a[1..][i] == a[i + 1];
      }
      SortedPermutationUnique(a[1..], b[1..]);
    }
  }

  lemma SortedTail(s: seq<Event>)
    requires s != []
    ensures Sorted(s) ==> Sorted(s[1..])
  {
    assert forall i :: 0 <= i < |s| - 1 ==> s[1..][i] == s[i + 1];
  }

  lemma SortedCons(x: Event, t: seq<Event>)
    ensures Sorted(t) && (t != [] ==> InOrder(x, t[0])) ==> Sorted([x] + t)
  {
    assert forall i :: 1 <= i < |t| + 1 ==> ([x] + t)[i] == t[i - 1];
  }

  /** Inserts `e` into `s` in front of the first event Less does not place before it. */
  function Insert(e: Event, s: seq<Event>): (r: seq<Event>)
    ensures multiset(r) == multiset(s) + multiset{e}
    ensures |r| == |s| + 1
    ensures r[0] == e || (s != [] && r[0] == s[0])
    ensures Sorted(s) ==> Sorted(r)
  {
    if s == [] then [e]
    else if Less(s[0], e) then
      var rest := Insert(e, s[1..]);
      InOrderIffNotLess(s[0], e);
      LessIsStrictWeakOrder(s[0], e, e);
      SortedTail(s);
      SortedCons(s[0], rest);
      MultisetOfTail(s);
      [s[0]] + rest
    else
      InOrderIffNotLess(e, s[0]);
      SortedCons(e, s);
      [e] + s
  }

  /**
   * One sort SortStream may perform: insertion sort by Less. SortStream
   * promises only what the contract says, a sorted permutation.
   */
  function SortEvents(s: seq<Event>): (r: seq<Event>)
    ensures multiset(r) == multiset(s)
    ensures Sorted(r)
  {
    if s == [] then []
    else
      assert s == [s[0]] + s[1..];
      Insert(s[0], SortEvents(s[1..]))
  }
}
