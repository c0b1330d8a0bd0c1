# crypto-order-book: a verified model of the order books and the snapshot/diff handler

This project models the sequential core of `crypto-order-book`, a Go service that keeps a local
copy of a Binance futures order book. The service fetches a REST depth snapshot, then applies
the differential depth-update stream to that copy. The model covers three pieces.

- **The map-based order book** (`go/internal/order-book.go`, module `MapOrderBook`). Each side
  is a `map[string]float64` keyed by the price string exactly as sent. `UpdateAsks` and
  `UpdateBids` apply a batch of `[price, quantity]` pairs. They then sort the parsed prices and
  return the best price and the tenth-level price. `ApplyUpdates` states the batch rule as a
  function. `ApplyBatch` is the loop, proved equal to it. `SortPrices` is `sortPrices`, proved
  to return an ordered permutation of the parsed keys. `QuoteSide` reads off elements 0 and 9.
- **The reconciliation handler** (`go/internal/event-handler.go`, module `EventHandler`). The
  class `Handler` has the Go struct's fields. `HandleUpdate` is proved against the pure
  transition `Step` on a `HandlerState` value. `Run` folds `Step` over a stream of messages, the
  way the read loop in `go/cmd/main.go` calls `HandleUpdate`: an error is logged and the loop
  goes on; a panic ends it.
- **The slice-plus-index order book** (`go/internal/trading-pairs/trading-pair.go`, module
  `TradingPair`). Per side it keeps an array of offers, an id map and a counter. `SideBook`
  groups one side's three fields, and `OrderBook` holds one `SideBook` per side. `Process` is
  the update loop as a function. `UpdatedBy` relates a side before and after one update call:
  the sort, the in-place shift of `slices.Delete`, or the panic.

Shared pieces: `Common` holds `Level`, the removal literal `"0.000"` and the `Parser` type.
`Sorting` holds `SortBy`, an in-place sort standing for `sort.Slice`. It promises "ordered by
the key, and a permutation" and nothing about ties, because `sort.Slice` is not stable.

`strconv.ParseFloat(s, 32)` is a parameter `parse: string -> Option<real>` that every operation
takes. Nothing is assumed about it. In particular it need not be injective: `"100.0"` and
`"100.00"` are two map keys that may parse to one number, and the models count them twice.

## Where the code departs from the usual snapshot-plus-diff protocol

The model follows the code. These departures are proved as lemmas.

- **First write wins.** A price already on the map book keeps its old quantity whatever
  quantity a later update carries. Only a removal changes it (`ExistingLevelKept`,
  `FirstWriteWins`). The protocol expects the last write to win.
- **Only the literal `"0.000"` removes** (`OtherZeroSpellingInserted`). A quantity `"0"` is
  stored as a level of quantity zero. The protocol would compare the parsed value with 0.
- **Failures are partial.** A quantity that does not parse stops the batch. The earlier updates
  of that batch stay applied (`FailureKeepsEarlierUpdates`). In the handler, a failing ask or
  bid update leaves `firstEventProcessed` set and the asks already changed, and the chain does
  not advance (`FailedUpdateIsPartial`).
- **A price key that does not parse is stored.** Only the quantity is parsed on insert. After
  that, every update call on that side returns an error until a removal names the price
  (`UnparsablePriceKeyPersists`).
- **An empty side panics.** The handler starts with an empty book and never loads the
  snapshot's levels. So an update that leaves a side empty indexes an empty slice; a first event
  with no asks is one case (`EmptyAskSidePanics`).
- **A gap is never healed.** A refetch changes only `snapshotLastUpdateId`.
  `firstEventProcessed` is never reset (`ProcessedStaysProcessed`), and the chain still expects
  the old `u`. So after a gap no event is applied again until one carries that old `pu`
  (`GapIsPermanent`). The protocol would rebuild the book and restart the chain.
- **The trading-pair removal shifts out the wrong offer.** The id is an insertion number, but
  `slices.Delete` uses it as a position in the price-sorted array
  (`RemovalShiftsByInsertionId`). A removal returns at once: the rest of the batch and the sort
  are skipped, and the array never shrinks. Removing the price with id 0 shifts nothing, so
  that offer is never removed by its own removal (`RemovalEndsBatch`); a removal of another id
  can still shift it out.
- **A parse failure breaks the trading-pair invariant.** Until a price fails to parse, the
  number of offers equals the counter and every id is below it. Under that invariant the shift
  never panics (`UpdateKeepsIndexed`). A price that fails to parse still uses up an id, so the
  counter runs one ahead of the array (`UnparsablePriceConsumesId`). A later removal of a high
  id can then panic.

## Model

| member | source | states |
|---|---|---|
| `MapOrderBook.ApplyBatch` | go/internal/order-book.go:25-40 | the update loop returns exactly the side and failure flag that the batch rule `ApplyUpdates` gives, processing the batch in wire order |
| `MapOrderBook.UntouchedPricesKept` | go/internal/order-book.go:25-40 | a price the batch never names keeps its entry or stays absent, even when the batch stops at a bad quantity |
| `MapOrderBook.BatchSplit` | go/internal/order-book.go:25-40 | applying `a + b` is applying `a`, then, unless `a` failed, applying `b` to its result |
| `MapOrderBook.ExistingLevelKept` | go/internal/order-book.go:32-33 | a price already present keeps its old quantity under any batch that does not remove it |
| `MapOrderBook.FirstWriteWins` | go/internal/order-book.go:32-38 | an unseen price named several times without removal is stored with the first quantity |
| `MapOrderBook.RemovalDeletes` | go/internal/order-book.go:28-31 | a `"0.000"` update removes the price unless a later update of the batch names it again |
| `MapOrderBook.RemovalOfAbsentIsNoOp` | go/internal/order-book.go:28-31 | removing an absent price leaves the map unchanged and the batch succeeds |
| `MapOrderBook.OtherZeroSpellingInserted` | go/internal/order-book.go:28-38 | a zero spelled `"0"` is inserted as a level of quantity 0, not treated as a removal |
| `MapOrderBook.FailureKeepsEarlierUpdates` | go/internal/order-book.go:34-37 | an unparsable quantity for an unseen price fails the batch, keeping exactly the updates before it |
| `MapOrderBook.UnparsablePriceKeyPersists` | go/internal/order-book.go:89-93 | a stored price key that does not parse makes every later update call on that side fail until it is removed |
| `MapOrderBook.PriceBagPick` | go/internal/order-book.go:89-95 | the multiset of parsed prices does not depend on which key the map iteration visits first |
| `MapOrderBook.SortPrices` | go/internal/order-book.go:86-105 | fails exactly when some key does not parse; otherwise returns the parsed keys, each once, ascending for asks and descending for bids |
| `MapOrderBook.LadderUnique` | go/internal/order-book.go:86-105 | any two results `sortPrices` could return for one map are equal, whatever the iteration order |
| `MapOrderBook.LadderShape` | go/internal/order-book.go:45-51 | the sorted list has one entry per key; every entry is some key's parse; the head is the minimum (asks) or the maximum (bids) of all parsed keys |
| `MapOrderBook.QuoteSide` | go/internal/order-book.go:41-51 | error after a failed batch or an unparsable key; panic on an empty side; otherwise best = element 0 (a parsed key, and the extreme one), tenth = element 9, or 0 below ten levels |
| `MapOrderBook.OrderBook.constructor` | go/internal/order-book.go:16-21 | both sides start empty |
| `MapOrderBook.OrderBook.UpdateAsks` | go/internal/order-book.go:24-52 | asks become the batch rule's result, bids are untouched, on success the lowest ask and tenth-lowest ask are returned, and on an error both returned prices are 0 |
| `MapOrderBook.OrderBook.UpdateBids` | go/internal/order-book.go:55-83 | bids become the batch rule's result, asks are untouched, on success the highest bid and tenth-highest bid are returned, and on an error both returned prices are 0 |
| `Sorting.SortBy` | go/internal/trading-pairs/trading-pair.go:100-110 | `sort.Slice` with `<` or `>` on the price leaves the array ordered by price and a permutation of its input |
| `EventHandler.Handler.constructor` | go/internal/event-handler.go:29-35 | the handler starts with the snapshot id, chain id 0, no event processed, and an empty book |
| `EventHandler.InitializeHandler` | go/internal/event-handler.go:23-36 | no handler when the snapshot fetch fails; otherwise a fresh handler built from the fetched id |
| `EventHandler.Handler.ReinitializeSnapshot` | go/internal/event-handler.go:88-97 | a successful fetch replaces only `snapshotLastUpdateId`; a failed one returns its error and changes nothing |
| `EventHandler.Handler.HandleUpdate` | go/internal/event-handler.go:40-86 | the handler fields and the book change exactly as `Step` says, and the returned outcome is `Step`'s |
| `EventHandler.StaleEventDiscarded` | go/internal/event-handler.go:45-48 | an event with `u` below the snapshot id returns nil and changes nothing |
| `EventHandler.SnapshotBoundaryNotStale` | go/internal/event-handler.go:45-48 | an event with `u` equal to the snapshot id is not discarded as stale |
| `EventHandler.GapRefetchesSnapshot` | go/internal/event-handler.go:49-58 | after the first event, a `pu` that breaks the chain is not applied; a good refetch changes only the snapshot id, a failed one changes nothing and returns the error |
| `EventHandler.FirstAdmissibleEventApplied` | go/internal/event-handler.go:49-63 | the first non-stale event is applied whatever its `pu`, and `firstEventProcessed` is then true |
| `EventHandler.AppliedAdvancesChain` | go/internal/event-handler.go:63-83 | a fully applied event passed the stale and chain checks, updated asks then bids, and set the chain id to its `u` |
| `EventHandler.CleanEventApplied` | go/internal/event-handler.go:45-83 | an event that is not stale, keeps the `pu` chain (or is the first one taken) and updates both sides without error is applied: the flag is set, both sides take the batch and the chain id becomes its `u` |
| `EventHandler.FailedUpdateIsPartial` | go/internal/event-handler.go:59-70 | a failing side update leaves the chain id and snapshot id, sets `firstEventProcessed`, and keeps the ask changes |
| `EventHandler.ProcessedStaysProcessed` | go/internal/event-handler.go:59-61 | along any stream, `firstEventProcessed` once true stays true |
| `EventHandler.GapIsPermanent` | go/internal/event-handler.go:49-58 | after a gap, while no event carries the old `u` as its `pu`, the book, the chain id and the processed flag never change, whatever the refetches return |
| `EventHandler.EmptyAskSidePanics` | go/internal/event-handler.go:29-35 | on a freshly initialised handler, a first event with no asks panics, since the book starts empty |
| `TradingPair.Append` | go/internal/trading-pairs/trading-pair.go:67 | `append` yields the old offers followed by the new one |
| `TradingPair.DeleteAt` | go/internal/trading-pairs/trading-pair.go:56 | `slices.Delete` with its result discarded moves the later offers left by one and keeps the length |
| `TradingPair.SideBook.constructor` | go/internal/trading-pairs/trading-pair.go:37-46 | one side starts with counter 0, no ids and no offers |
| `TradingPair.SideBook.Update` | go/internal/trading-pairs/trading-pair.go:48-72 | counter and ids follow the update loop; offers are sorted after a full batch, shifted after a removal with nonzero id, and otherwise (a price parse error, or a removal with id 0) left as the loop's appends made them, unsorted; panic when the shift range is invalid |
| `TradingPair.OrderBook.constructor` | go/internal/trading-pairs/trading-pair.go:37-46 | both sides start empty in distinct arrays |
| `TradingPair.OrderBook.UpdateAsks` | go/internal/trading-pairs/trading-pair.go:48-72 | the ask side is updated as `UpdatedBy` says, sorted ascending; the bid side is untouched |
| `TradingPair.OrderBook.UpdateBids` | go/internal/trading-pairs/trading-pair.go:74-98 | the bid side is updated as `UpdatedBy` says, sorted descending; the ask side is untouched |
| `TradingPair.ProcessInvariants` | go/internal/trading-pairs/trading-pair.go:60-68 | ids stay distinct and below the counter; offers only grow by appending; the counter runs ahead of the offers only after a parse error |
| `TradingPair.UpdateKeepsIndexed` | go/internal/trading-pairs/trading-pair.go:52-70 | if offers and counter agree before a call, there is no panic; after a nil return they still agree; after an error the counter is one ahead |
| `TradingPair.InsertUnseen` | go/internal/trading-pairs/trading-pair.go:60-68 | an unseen price gets the counter as its id, the counter increments, and the parsed price with the raw quantity is appended |
| `TradingPair.KnownPriceIgnored` | go/internal/trading-pairs/trading-pair.go:52-60 | a price that has an id and a quantity other than `"0.000"` changes nothing |
| `TradingPair.UnparsablePriceConsumesId` | go/internal/trading-pairs/trading-pair.go:61-66 | an unparsable price still takes an id and the counter advances; nothing is appended and the call ends with an error |
| `TradingPair.RemovalEndsBatch` | go/internal/trading-pairs/trading-pair.go:53-59 | a removal deletes the id and returns at once; offers are unchanged when the id is 0 and shifted at the id otherwise |
| `TradingPair.RemovalShiftsByInsertionId` | go/internal/trading-pairs/trading-pair.go:53-59 | after asks 3, 1, 2 are inserted and sorted, removing price 1 shifts out the offer for price 2 and keeps price 1's |

## Left out

- JSON decoding (`go/internal/types.go`, go/internal/event-handler.go:41-44): the decoded
  `data` object is the datatype `DepthUpdate`, and a message that does not decode is `None`.
  The fields the core never reads (event type, times, symbol, stream name) are omitted.
- The snapshot fetch (`getDepthSnapshot`, `go/internal/utils.go`): an HTTP GET and a JSON
  decode. It is an input `Option<int>`: the fetched `lastUpdateId`, or a failure. The snapshot's
  levels are not modelled because the code never reads them.
- The channel relay of touch prices (go/internal/event-handler.go:76-81) and all logging. The
  touch and tenth-level prices are computed and proved in `UpdateAsks` and `UpdateBids`, but
  `HandleUpdate` returns only its outcome, as the Go code returns only an error.
- The four-result calls at go/internal/event-handler.go:63 and :67 and `oneUnitAsk` /
  `oneUnitBid`: no shown code computes them. The three-result form of `go/internal/order-book.go`
  is used instead.
- `go/cmd/main.go`: websocket dialling, the read goroutine, keepalive, shutdown, and the moving
  average fed by tickers. `Run` models only how the read loop treats errors.
- `go/config/config.go` (reading a JSON file) and the per-symbol wrappers
  `go/internal/trading-pairs/btc-usdt.go` and `eth-usdt.go`, which delegate and drop the error.
- Floating point: `ParseFloat(…, 32)` is the abstract `parse`. Float32 rounding and float64
  comparison are not modelled; prices compare as reals.
- Update ids are Go `int64` and `int`. They are unbounded `int` here, because the code only
  compares and copies them, so no wrap-around can arise. A 64-bit platform is assumed, where
  `int(int64)` is the identity.
- Go maps are references mutated in place. The map book runs each batch on the side's map as a
  value and assigns the result to the field before it returns, on success and on error alike.
  Nothing observes the map during a batch.
- Go map iteration order is unspecified. `SortPrices` picks keys with `:|`, and `LadderUnique`
  shows that the result does not depend on the order.
- Go slice capacity: `append` is modelled as copying into a fresh array one longer. Sharing of
  backing arrays between slices is not modelled, because no other slice refers to the offers.
- TradingPair.DeleteAt: its contract leaves the vacated last slot unspecified. What
  `slices.Delete` leaves there depends on the Go version (zeroed from Go 1.22, stale before).
- TradingPair.SideBook.Update: after a panic its contract says nothing about the side's state,
  because the program ends there.
