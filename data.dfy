/**
 * The in-memory event buffer that drives a backtest: the pending stream,
 * the consumed history, and two indexes keyed by symbol (the latest
 * consumed event, and every consumed event in consumption order).
 */
module Backtest {
  import opened Events

  /** The events of `h` whose symbol is `k`, in the order of `h`. */
  function OfSymbol(h: seq<Event>, k: string): (r: seq<Event>)
    ensures |r| <= |h|
  {
    if h == [] then []
    else if h[0].symbol == k then [h[0]] + OfSymbol(h[1..], k)
    else OfSymbol(h[1..], k)
  }

  /** OfSymbol keeps exactly the events of `h` that carry symbol `k`. */
  lemma {:induction false} OfSymbolMembers(h: seq<Event>, k: string)
    ensures forall e :: e in OfSymbol(h, k) <==> e in h && e.symbol == k
  {
    if h != [] {
      OfSymbolMembers(h[1..], k);
      assert h == [h[0]] + h[1..];
    }
  }

  /** A symbol's filtered history is empty exactly when no event of `h` carries it. */
  lemma {:induction false} OfSymbolEmpty(h: seq<Event>, k: string)
    ensures OfSymbol(h, k) == [] <==> forall i :: 0 <= i < |h| ==> h[i].symbol != k
  {
    if h != [] {
      OfSymbolEmpty(h[1..], k);
      assert forall i :: 1 <= i < |h| ==> h[i] == h[1..][i - 1];
    }
  }

  lemma {:induction false} OfSymbolConcat(a: seq<Event>, b: seq<Event>, k: string)
    ensures OfSymbol(a + b, k) == OfSymbol(a, k) + OfSymbol(b, k)
  {
    if a == [] {
      assert a + b == b;
    } else {
      assert (a + b)[0] == a[0];
      assert (a + b)[1..] == a[1..] + b;
      OfSymbolConcat(a[1..], b, k);
    }
  }

  function Last(s: seq<Event>): Event
    requires s != []
  {
    s[|s| - 1]
  }

  /**
   * The last event of OfSymbol(h, k) is the event at the last position of
   * `h` that carries symbol `k`.
   */
  lemma {:induction false} LastOfSymbolIsLastOccurrence(h: seq<Event>, k: string)
    requires OfSymbol(h, k) != []
    ensures exists i :: 0 <= i < |h| && h[i] == Last(OfSymbol(h, k)) && h[i].symbol == k &&
                        forall j :: i < j < |h| ==> h[j].symbol != k
  {
    var init, x := h[..|h| - 1], h[|h| - 1];
    assert h == init + [x];
    OfSymbolConcat(init, [x], k);
    assert OfSymbol([x], k) == if x.symbol == k then [x] else [] by {
      assert [x][1..] == [];
    }
    if x.symbol == k {
      assert h[|h| - 1] == Last(OfSymbol(h, k));
    } else {
      LastOfSymbolIsLastOccurrence(init, k);
      var i :| 0 <= i < |init| && init[i] == Last(OfSymbol(init, k)) && init[i].symbol == k &&
               forall j :: i < j < |init| ==> init[j].symbol != k;
      assert h[i] == init[i];
    }
  }

  /** `list[k]`, where an absent key reads as Go's nil slice. */
  function ListOf(list: map<string, seq<Event>>, k: string): seq<Event>
  {
    if k in list then list[k] else []
  }

  /** `latest[k]`, where an absent key reads as the nil event. */
  function LatestOf(latest: map<string, Event>, k: string): Option<Event>
  {
    if k in latest then Some(latest[k]) else None
  }

  /**
   * The indexes agree with the history: every symbol's list is the history
   * filtered to that symbol, a symbol has a latest event exactly when it
   * has been consumed, and then that event ends its list. Both maps have
   * the same keys, because Next writes both.
   */
  ghost predicate IndexConsistent(h: seq<Event>, latest: map<string, Event>, list: map<string, seq<Event>>)
  {
    && latest.Keys == list.Keys
    && (forall k :: ListOf(list, k) == OfSymbol(h, k))
    && (forall k :: k in latest <==> OfSymbol(h, k) != [])
    && (forall k :: k in latest ==> latest[k] == Last(OfSymbol(h, k)))
  }

  /** Consuming `e` extends the filtered history of its symbol only. */
  lemma OfSymbolSnoc(h: seq<Event>, e: Event, k: string)
    ensures OfSymbol(h + [e], k) == OfSymbol(h, k) + (if e.symbol == k then [e] else [])
  {
    OfSymbolConcat(h, [e], k);
    assert [e][1..] == [];
  }

  /** Consuming `e` and updating both indexes for its symbol keeps them consistent. */
  lemma ConsumeKeepsIndex(h: seq<Event>, latest: map<string, Event>, list: map<string, seq<Event>>, e: Event)
    requires IndexConsistent(h, latest, list)
    ensures IndexConsistent(h + [e], latest[e.symbol := e], list[e.symbol := ListOf(list, e.symbol) + [e]])
  {
    var h', latest', list' := h + [e], latest[e.symbol := e], list[e.symbol := ListOf(list, e.symbol) + [e]];
    forall k
      ensures ListOf(list', k) == OfSymbol(h', k)
      ensures k in latest' <==> OfSymbol(h', k) != []
      ensures k in latest' ==> latest'[k] == Last(OfSymbol(h', k))
    {
      OfSymbolSnoc(h, e, k);
      if k != e.symbol {
        assert ListOf(list', k) == ListOf(list, k);
      }
    }
  }

  /** The backtest data buffer. */
  class Data {
    var latest: map<string, Event>
    var list: map<string, seq<Event>>
    var stream: seq<Event>
    var streamHistory: seq<Event>

    ghost predicate Valid()
      reads this
    {
      IndexConsistent(streamHistory, latest, list)
    }

    /** The zero value: nil maps and nil slices. */
    constructor ()
      ensures Valid()
      ensures stream == [] && streamHistory == [] && latest == map[] && list == map[]
    {
      latest, list := map[], map[];
      stream, streamHistory := [], [];
    }

    /**
     * Replays what was consumed: the history becomes the new stream and the
     * history and both indexes are emptied. Events still pending are
     * dropped, so a second Reset leaves an empty stream.
     */
    method Reset()
      requires Valid()
      modifies this
      ensures Valid()
      ensures stream == old(streamHistory) && streamHistory == []
      ensures latest == map[] && list == map[]
    {
      latest := map[];
      list := map[];
      stream := streamHistory;
      streamHistory := [];
    }

    method SetStream(s: seq<Event>)
      requires Valid()
      modifies this`stream
      ensures Valid()
      ensures stream == s
    {
      stream := s;
    }

    method Stream() returns (s: seq<Event>)
      ensures s == stream
    {
      s := stream;
    }

    /**
     * Hands out the first pending event, moves it to the history and
     * records it in both indexes; on an empty stream reports false and
     * changes nothing.
     */
    method Next() returns (dh: Option<Event>, ok: bool)
      requires Valid()
      modifies this`stream, this`streamHistory, this`latest, this`list
      ensures Valid()
      ensures ok == dh.Some? && ok == (old(stream) != [])
      ensures streamHistory + stream == old(streamHistory + stream)
      ensures !ok ==> stream == old(stream) && streamHistory == old(streamHistory) &&
                      latest == old(latest) && list == old(list)
      ensures ok ==> dh.value == old(stream)[0] && stream == old(stream)[1..] &&
                     streamHistory == old(streamHistory) + [dh.value]
      ensures ok ==> latest == old(latest)[dh.value.symbol := dh.value] &&
                     list == old(list)[dh.value.symbol := ListOf(old(list), dh.value.symbol) + [dh.value]]
    {
      if |stream| == 0 {
        return None, false;
      }
      var e := stream[0];
      assert streamHistory + stream == (streamHistory + [e]) + stream[1..];
      stream := stream[1..];
      streamHistory := streamHistory + [e];
      ConsumeKeepsIndex(old(streamHistory), latest, list, e);
      UpdateLatest(e);
      UpdateList(e);
      return Some(e), true;
    }

    method History() returns (h: seq<Event>)
      requires Valid()
      ensures h == streamHistory
      ensures forall k :: OfSymbol(h, k) == ListOf(list, k)
    {
      h := streamHistory;
    }

    /**
     * The last consumed event for `symbol`, or None (Go's nil event) if no
     * consumed event carries that symbol.
     */
    method Latest(symbol: string) returns (r: Option<Event>)
      requires Valid()
      ensures r.None? <==> OfSymbol(streamHistory, symbol) == []
      ensures r.None? <==> forall i :: 0 <= i < |streamHistory| ==> streamHistory[i].symbol != symbol
      ensures r.Some? ==> r.value == Last(OfSymbol(streamHistory, symbol))
      ensures r.Some? ==> exists i :: 0 <= i < |streamHistory| && streamHistory[i] == r.value &&
                            streamHistory[i].symbol == symbol &&
                            forall j :: i < j < |streamHistory| ==> streamHistory[j].symbol != symbol
    {
      r := LatestOf(latest, symbol);
      OfSymbolEmpty(streamHistory, symbol);
      if r.Some? {
        LastOfSymbolIsLastOccurrence(streamHistory, symbol);
      }
    }

    /** Every consumed event for `symbol`, in consumption order. */
    method List(symbol: string) returns (r: seq<Event>)
      requires Valid()
      ensures r == OfSymbol(streamHistory, symbol)
    {
      r := ListOf(list, symbol);
    }

    /** Sorts the pending stream by Less. */
    method SortStream()
      requires Valid()
      modifies this`stream
      ensures Valid()
      ensures Sorted(stream) && multiset(stream) == multiset(old(stream))
    {
      stream := SortEvents(stream);
    }

    /** Records `event` as the latest for its symbol. */
    method UpdateLatest(event: Event)
      modifies this`latest
      ensures latest == old(latest)[event.symbol := event]
      ensures LatestOf(latest, event.symbol) == Some(event)
      ensures forall k :: k != event.symbol ==> LatestOf(latest, k) == LatestOf(old(latest), k)
    {
      // Go allocates the map on first use; an empty Dafny map needs no allocation.
      latest := latest[event.symbol := event];
    }

    /** Appends `event` to the list of its symbol, creating the entry if absent. */
    method UpdateList(event: Event)
      modifies this`list
      ensures list == old(list)[event.symbol := ListOf(old(list), event.symbol) + [event]]
      ensures ListOf(list, event.symbol) == ListOf(old(list), event.symbol) + [event]
      ensures forall k :: k != event.symbol ==> ListOf(list, k) == ListOf(old(list), k)
    {
      list := list[event.symbol := ListOf(list, event.symbol) + [event]];
    }
  }
}
