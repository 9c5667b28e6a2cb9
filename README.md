# Backtest data buffer, modelled in Dafny

This project models `Data` from the `backtest` package of gobacktest. `Data` is the in-memory event buffer that feeds a backtest loop. It holds four pieces of state:

- the pending `stream`;
- the consumed `streamHistory`, in the order the events were handed out;
- `latest`, the most recently consumed event per symbol;
- `list`, every consumed event per symbol, in consumption order.

`Next` hands out the head of the stream and records it in the history and in both indexes. `SortStream` orders the stream by timestamp, with ties broken by symbol. `Reset` turns the history into the new stream so the backtest can be replayed.

Files:

- `events.dfy` (module `Events`):
  - the `Event` datatype: an integer timestamp, a symbol, and an opaque `id` for the payload;
  - Go's lexicographic `<` on strings (`StringLess`);
  - the less function `SortStream` passes to `sort.Slice` (`Less`);
  - the sortedness and distinct-key predicates;
  - an insertion sort, which is one sort `SortStream` may perform.
- `data.dfy` (module `Backtest`):
  - the class `Data`, with the four fields as `seq` and `map` values;
  - the history filtered to one symbol (`OfSymbol`);
  - the index invariant `IndexConsistent`, which `Data.Valid()` applies to the object's fields.
- `replay.dfy` (module `Replay`):
  - client code that calls `Next` until it returns false;
  - drain, reset and replay;
  - two Resets in a row;
  - the three-event sorted walk-through.

Modelling decisions:

- A Go nil map is an empty Dafny map. A key missing from `latest` reads as `None`, which stands for Go's nil event. A key missing from `list` reads as the empty sequence. The lazy `make` in `updateLatest` and `updateList` therefore has nothing left to do.
- `Next` returns `(Option<Event>, bool)`. The option is `None` exactly when the flag is false, which is when Go returns the zero `DataEvent`.
- `Reset`'s `error` result is always nil in the source, so the model leaves it out.
- Go compares strings byte by byte in UTF-8. Dafny compares `char` by code point, and UTF-8 byte order agrees with code-point order.
- `Reset` is not idempotent. It assigns `stream := streamHistory` and then `streamHistory := nil`, so a second `Reset` leaves an empty stream (`Replay.ResetTwice`). Events still pending when `Reset` runs are dropped.

## Model

| member | source | states |
|---|---|---|
| `Events.StringLessIrreflexive` | pkg/backtest/data.go:105 | No symbol sorts before itself under Go's `<` on strings |
| `Events.StringLessAsymmetric` | pkg/backtest/data.go:105 | Two symbols are never each `<` the other |
| `Events.StringLessTransitive` | pkg/backtest/data.go:105 | String `<` is transitive |
| `Events.StringLessConnected` | pkg/backtest/data.go:105 | Of two different symbols, one is `<` the other |
| `Events.LessIsStrictWeakOrder` | pkg/backtest/data.go:99-109 | The comparator given to `sort.Slice` is irreflexive and transitive. Two events are incomparable exactly when they share timestamp and symbol |
| `Events.InOrderIffNotLess` | pkg/backtest/data.go:99-109 | An adjacent pair (a, b) satisfies "a.time < b.time, or equal times and a.symbol <= b.symbol" exactly when the comparator does not put b before a |
| `Events.InOrderTransitive` | pkg/backtest/data.go:99-109 | The sorted-pair order is transitive |
| `Events.InOrderAntisymmetric` | pkg/backtest/data.go:99-109 | Two events each in order with the other share timestamp and symbol |
| `Events.SortedHeadFirst` | pkg/backtest/data.go:98-110 | In a sorted stream the first event is in order with every later event |
| `Events.SortedPermutationsSameHead` | pkg/backtest/data.go:98-110 | Two sorted permutations of events with distinct (time, symbol) keys start with the same event |
| `Events.SortedPermutationUnique` | pkg/backtest/data.go:98-110 | `sort.Slice` is unstable, but when no two events share time and symbol, every sorted permutation is the same sequence |
| `Events.Insert` | pkg/backtest/data.go:98-110 | Inserting an event yields the old events plus that one, and keeps a sorted sequence sorted |
| `Events.SortEvents` | pkg/backtest/data.go:98-110 | The reference sort returns a permutation of its input that is sorted by the comparator |
| `Backtest.OfSymbol` | pkg/backtest/data.go:123-130 | A symbol's filtered history is never longer than the history |
| `Backtest.OfSymbolMembers` | pkg/backtest/data.go:123-130 | An event is in a symbol's filtered history exactly when the history holds it and it carries that symbol |
| `Backtest.OfSymbolEmpty` | pkg/backtest/data.go:123-130 | A symbol's filtered history is empty exactly when no consumed event carries that symbol |
| `Backtest.OfSymbolConcat` | pkg/backtest/data.go:123-130 | Filtering the concatenation of two histories is the concatenation of the two filters |
| `Backtest.OfSymbolSnoc` | pkg/backtest/data.go:72-77 | Consuming one event extends the filtered history of its own symbol by that event and leaves every other symbol's filtered history unchanged |
| `Backtest.LastOfSymbolIsLastOccurrence` | pkg/backtest/data.go:113-120 | The last element of a symbol's filtered history sits at the last position in the history that carries that symbol |
| `Backtest.ConsumeKeepsIndex` | pkg/backtest/data.go:64-80 | Appending an event to the history stays consistent with both indexes if `latest[sym] := e` and `list[sym] := list[sym] + [e]` are applied at the same time. Consistent means: each list is the history filtered by symbol, and `latest` has exactly the seen symbols, each mapped to the end of its list |
| `Backtest.Data.constructor` | pkg/backtest/data.go:28-34 | The zero `Data` has an empty stream, an empty history and empty indexes, and satisfies the index invariant |
| `Backtest.Data.Reset` | pkg/backtest/data.go:44-50 | The stream becomes the old history. The history, `latest` and `list` become empty. The invariant is kept |
| `Backtest.Data.SetStream` | pkg/backtest/data.go:53-55 | Only the stream changes, and it becomes the argument |
| `Backtest.Data.Stream` | pkg/backtest/data.go:58-60 | Returns the pending stream and changes nothing |
| `Backtest.Data.Next` | pkg/backtest/data.go:64-80 | On an empty stream: returns (None, false) and leaves all four fields unchanged. Otherwise: returns the old head, the stream becomes the old tail, and the history gains the head at its end. `latest` and `list` change only at the head's symbol. History followed by stream is unchanged. The index invariant is kept |
| `Backtest.Data.History` | pkg/backtest/data.go:83-85 | Returns the history, whose per-symbol filter equals `List` for every symbol |
| `Backtest.Data.Latest` | pkg/backtest/data.go:88-90 | Returns None exactly when no consumed event has the symbol. Otherwise returns the last consumed event that has that symbol |
| `Backtest.Data.List` | pkg/backtest/data.go:93-95 | Returns exactly the consumed events of the symbol, in consumption order. An unseen symbol gives the empty sequence |
| `Backtest.Data.SortStream` | pkg/backtest/data.go:98-110 | The new stream is a permutation of the old one, every adjacent pair is in (time, symbol) order, and nothing else changes |
| `Backtest.Data.UpdateLatest` | pkg/backtest/data.go:113-120 | `Latest(sym)` becomes the event. Every other symbol's latest event is unchanged |
| `Backtest.Data.UpdateList` | pkg/backtest/data.go:123-130 | `List(sym)` becomes the old list plus the event, with an absent key read as empty. Every other symbol's list is unchanged |
| `Replay.Drain` | pkg/backtest/data.go:64-80 | Calling `Next` until it returns false yields exactly the old stream, in order, and appends it to the history |
| `Replay.DrainResetReplay` | pkg/backtest/data.go:44-80 | Drain, then `Reset`, then drain again replays exactly the old history followed by the old stream, in order |
| `Replay.ResetTwice` | pkg/backtest/data.go:44-50 | A second `Reset` leaves an empty stream, an empty history and empty indexes, so `Reset` is not idempotent |
| `Replay.ScenarioSortOrder` | pkg/backtest/data.go:98-110 | The only sorted arrangement of (10, A), (10, B), (5, A) is (5, A), (10, A), (10, B) |
| `Replay.ScenarioFilters` | pkg/backtest/data.go:123-130 | The per-symbol lists of that sorted history are [(5, A), (10, A)] and [(10, B)] |
| `Replay.SortedScenario` | pkg/backtest/data.go:53-110 | The walk-through: set the stream, sort it, consume it all. The events arrive in sorted order and the history equals them. `Latest("A")` is (10, A), and the lists of A and B are as above. A fourth `Next` reports false |

## Left out

- `Load` (pkg/backtest/data.go:39-41): a stub that returns nil. Real loaders read files or network endpoints, and that code is not part of this model.
- The interfaces `DataHandler`, `DataLoader` and `DataStreamer` (pkg/backtest/data.go:8-26) are type plumbing only. `Reseter` and `DataEvent` are defined in files that are not part of this model, so `Event` carries only a timestamp, a symbol and an opaque id.
- Go `time.Time` (monotonic readings, locations) is left out. Timestamps are integers, with `Equal` as `==` and `Before` as `<`.
- Backtest.Data.SortStream: the algorithm inside `sort.Slice` is not modelled. The contract promises only a sorted permutation, as the source does. The body uses an insertion sort as one admissible result. No order among events with equal time and symbol is promised.
- Slice aliasing is not modelled. `Stream`, `History` and `List` return immutable sequences, not views of internal storage. The difference between a nil slice and an empty one is also dropped.
- Backtest.Data.Reset: the returned `error` is always nil in the source and is not modelled.
- Strings are code-point sequences. Symbols that are not valid UTF-8 byte strings are not modelled.
- Nil `DataEvent` values in the stream are not modelled: `Event` has no nil value, so `Next` and `SortStream` never fail here. In Go, `Next` panics on a nil event after moving it into the history (pkg/backtest/data.go:71-72, 119), leaving the history ahead of `latest` and `list`, and `SortStream` panics while comparing it (pkg/backtest/data.go:104).
