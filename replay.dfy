/**
 * What a backtest loop observes when it drives the buffer: pulling events
 * until Next reports false, replaying after Reset, and the sorted
 * three-event walk-through.
 */
module Replay {
  import opened Events
  import opened Backtest

  /** Calls Next until it reports false and returns the events it handed out. */
  method Drain(d: Data) returns (events: seq<Event>)
    requires d.Valid()
    modifies d
    ensures d.Valid()
    ensures events == old(d.stream) && d.stream == []
    ensures d.streamHistory == old(d.streamHistory) + events
  {
    events := [];
    var ok := true;
    while ok
      invariant d.Valid()
      invariant old(d.stream) == events + d.stream
      invariant d.streamHistory == old(d.streamHistory) + events
      invariant !ok ==> d.stream == []
      decreases |d.stream| + (if ok then 1 else 0)
    {
      ghost var before := d.stream;
      var e;
      e, ok := d.Next();
      if ok {
        assert before == [e.value] + d.stream;
        assert old(d.stream) == (events + [e.value]) + d.stream;
        events := events + [e.value];
      }
    }
  }

  /**
   * Draining the stream, resetting and draining again hands out the whole
   * original history followed by the original stream, in order, and the
   * indexes are empty right after the Reset.
   */
  method DrainResetReplay(d: Data) returns (first: seq<Event>, replay: seq<Event>)
    requires d.Valid()
    modifies d
    ensures d.Valid()
    ensures first == old(d.stream)
    ensures replay == old(d.streamHistory) + old(d.stream)
    ensures d.stream == [] && d.streamHistory == replay
  {
    first := Drain(d);
    d.Reset();
    assert d.latest == map[] && d.list == map[];
    replay := Drain(d);
  }

  /**
   * Reset is not idempotent: the second one finds an empty history, so the
   * stream ends up empty whatever was pending.
   */
  method ResetTwice(d: Data)
    requires d.Valid()
    modifies d
    ensures d.Valid()
    ensures d.stream == [] && d.streamHistory == [] && d.latest == map[] && d.list == map[]
  {
    d.Reset();
    d.Reset();
  }

  /**
   * The only sorted arrangement of (10, A), (10, B), (5, A) is
   * (5, A), (10, A), (10, B).
   */
  lemma ScenarioSortOrder(s: seq<Event>)
    requires Sorted(s)
    requires multiset(s) == multiset([Event(10, "A", 0), Event(10, "B", 1), Event(5, "A", 2)])
    ensures s == [Event(5, "A", 2), Event(10, "A", 0), Event(10, "B", 1)]
  {
    var expected := [Event(5, "A", 2), Event(10, "A", 0), Event(10, "B", 1)];
    assert StringLess("A", "B");
    assert Sorted(expected);
    assert multiset(expected) == multiset([Event(10, "A", 0), Event(10, "B", 1), Event(5, "A", 2)]);
    SortedPermutationUnique(expected, s);
  }

  /** The per-symbol views of the sorted scenario history. */
  lemma ScenarioFilters()
    ensures OfSymbol([Event(5, "A", 2), Event(10, "A", 0), Event(10, "B", 1)], "A") ==
            [Event(5, "A", 2), Event(10, "A", 0)]
    ensures OfSymbol([Event(5, "A", 2), Event(10, "A", 0), Event(10, "B", 1)], "B") == [Event(10, "B", 1)]
  {
    var h := [Event(5, "A", 2), Event(10, "A", 0), Event(10, "B", 1)];
    assert h[1..] == [Event(10, "A", 0), Event(10, "B", 1)];
    assert h[1..][1..] == [Event(10, "B", 1)];
    assert h[1..][1..][1..] == [];
    assert "A" != "B";
  }

  /**
   * Loading [(10, A), (10, B), (5, A)], sorting and consuming everything
   * yields (5, A), (10, A), (10, B) in that order and leaves the indexes
   * describing exactly that history.
   */
  method SortedScenario() returns (out: seq<Event>, history: seq<Event>, latestA: Option<Event>,
                                   listA: seq<Event>, listB: seq<Event>, exhausted: bool)
    ensures out == [Event(5, "A", 2), Event(10, "A", 0), Event(10, "B", 1)]
    ensures history == out
    ensures latestA == Some(Event(10, "A", 0))
    ensures listA == [Event(5, "A", 2), Event(10, "A", 0)] && listB == [Event(10, "B", 1)]
    ensures exhausted
  {
    var a, b, c := Event(10, "A", 0), Event(10, "B", 1), Event(5, "A", 2);
    var d := new Data();
    d.SetStream([a, b, c]);
    d.SortStream();
    ScenarioSortOrder(d.stream);
    out := Drain(d);
    history := d.History();
    ScenarioFilters();
    latestA := d.Latest("A");
    listA := d.List("A");
    listB := d.List("B");
    var e, ok := d.Next();
    exhausted := !ok;
  }
}
