/** The snapshot/diff reconciliation of go/internal/event-handler.go, following
    the update-id convention of the Binance futures depth stream: `U` first and
    `u` final update id of an event, `pu` the final update id of the event
    before it in the stream. */
module EventHandler {
  import opened Common
  import MapOrderBook

  /** The decoded `data` object of one depth-update message. */
  datatype DepthUpdate = DepthUpdate(
    firstUpdateId: int,          // U
    finalUpdateId: int,          // u
    previousFinalUpdateId: int,  // pu
    bids: seq<Level>,
    asks: seq<Level>)

  datatype Error = DecodeError | SnapshotFetchError | ParseError

  /** How `HandleUpdate` ends. `Stale`, `Resynced` and `Applied` are the three
      ways of returning nil; `Panicked` is the index panic of an update call on
      a side left empty. */
  datatype Outcome = Stale | Resynced | Applied | Failed(error: Error) | Panicked

  /** The handler's fields and its book, as values. */
  datatype HandlerState = HandlerState(
    snapshotLastUpdateId: int,
    previousEventFinalUpdate: int,
    firstEventProcessed: bool,
    asks: map<string, real>,
    bids: map<string, real>)

  datatype Transition = Transition(state: HandlerState, outcome: Outcome)

  /** What `InitializeHandler` builds from a fetched snapshot: its id, an empty
      book (the snapshot's own levels are not loaded) and no event seen. */
  function Initial(lastUpdateId: int): HandlerState {
    HandlerState(lastUpdateId, 0, false, map[], map[])
  }

  function SideFailure(status: MapOrderBook.SideStatus): Outcome {
    if status == MapOrderBook.EmptySide then Panicked else Failed(ParseError)
  }

  /** One call of `HandleUpdate`. `message` is the decoded event (`None` when
      decoding fails); `refetched` is what a snapshot fetch would return now
      (its `lastUpdateId`, or `None` when the fetch fails), used only when a
      gap forces a refetch. */
  function Step(s: HandlerState, message: Option<DepthUpdate>, refetched: Option<int>, parse: Parser): Transition {
    match message
    case None => Transition(s, Failed(DecodeError))
    case Some(e) =>
      if e.finalUpdateId < s.snapshotLastUpdateId then Transition(s, Stale)
      else if e.previousFinalUpdateId != s.previousEventFinalUpdate && s.firstEventProcessed then
        match refetched
        case None => Transition(s, Failed(SnapshotFetchError))
        case Some(id) => Transition(s.(snapshotLastUpdateId := id), Resynced)
      else
        var a := MapOrderBook.ApplyUpdates(s.asks, e.asks, parse);
        var s1 := s.(firstEventProcessed := true, asks := a.levels);
        var askStatus := MapOrderBook.StatusOf(a, parse);
        if askStatus != MapOrderBook.Quoted then Transition(s1, SideFailure(askStatus))
        else
          var b := MapOrderBook.ApplyUpdates(s.bids, e.bids, parse);
          var s2 := s1.(bids := b.levels);
          var bidStatus := MapOrderBook.StatusOf(b, parse);
          if bidStatus != MapOrderBook.Quoted then Transition(s2, SideFailure(bidStatus))
          else Transition(s2.(previousEventFinalUpdate := e.finalUpdateId), Applied)
  }

  /** One message read from the stream, with the snapshot fetch result that a
      gap would see at that moment. */
  datatype Delivery = Delivery(message: Option<DepthUpdate>, refetched: Option<int>)

  /** The read loop of one pair: every message goes through `HandleUpdate`; an
      error is logged and the loop goes on; a panic ends it. */
  function Run(s: HandlerState, deliveries: seq<Delivery>, parse: Parser): HandlerState
    decreases |deliveries|
  {
    if deliveries == [] then s
    else
      var t := Step(s, deliveries[0].message, deliveries[0].refetched, parse);
      if t.outcome == Panicked then t.state else Run(t.state, deliveries[1..], parse)
  }

  class Handler {
    var snapshotLastUpdateId: int
    var previousEventFinalUpdate: int
    const tradingPairOb: MapOrderBook.OrderBook
    const snapshotUrl: string
    const pairSymbol: string
    var firstEventProcessed: bool

    ghost function State(): HandlerState
      reads this, tradingPairOb
    {
      HandlerState(snapshotLastUpdateId, previousEventFinalUpdate, firstEventProcessed,
                   tradingPairOb.asks, tradingPairOb.bids)
    }

    constructor (tpSymbol: string, url: string, lastUpdateId: int)
      ensures State() == Initial(lastUpdateId)
      ensures pairSymbol == tpSymbol && snapshotUrl == url && fresh(tradingPairOb)
    {
      snapshotLastUpdateId := lastUpdateId;
      previousEventFinalUpdate := 0;
      tradingPairOb := new MapOrderBook.OrderBook();
      snapshotUrl := url;
      pairSymbol := tpSymbol;
      firstEventProcessed := false;
    }

    /** `reinitializeSnapshot`: on a successful fetch, only the snapshot id
        changes; the book and the chain fields are kept. */
    method ReinitializeSnapshot(fetched: Option<int>) returns (err: Option<Error>)
      modifies this`snapshotLastUpdateId
      ensures fetched.None? ==> err == Some(SnapshotFetchError) && snapshotLastUpdateId == old(snapshotLastUpdateId)
      ensures fetched.Some? ==> err == None && snapshotLastUpdateId == fetched.value
    {
      match fetched {
        case None =>
          return Some(SnapshotFetchError);
        case Some(id) =>
          snapshotLastUpdateId := id;
          return None;
      }
    }

    method HandleUpdate(message: Option<DepthUpdate>, refetched: Option<int>, parse: Parser) returns (outcome: Outcome)
      modifies this, tradingPairOb
      ensures Transition(State(), outcome) == Step(old(State()), message, refetched, parse)
    {
      if message.None? {
        return Failed(DecodeError);
      }
      var e := message.value;
      if e.finalUpdateId < snapshotLastUpdateId {
        return Stale;
      }
      if e.previousFinalUpdateId != previousEventFinalUpdate && firstEventProcessed {
        var err := ReinitializeSnapshot(refetched);
        if err.Some? {
          return Failed(err.value);
        }
        return Resynced;
      }
      if !firstEventProcessed {
        firstEventProcessed := true;
      }
      var askQuote := tradingPairOb.UpdateAsks(e.asks, parse);
      if askQuote.status != MapOrderBook.Quoted {
        return SideFailure(askQuote.status);
      }
      var bidQuote := tradingPairOb.UpdateBids(e.bids, parse);
      if bidQuote.status != MapOrderBook.Quoted {
        return SideFailure(bidQuote.status);
      }
      previousEventFinalUpdate := e.finalUpdateId;
      return Applied;
    }
  }

  /** `InitializeHandler`, with the snapshot fetch as an input: no handler when
      the fetch fails. */
  method InitializeHandler(tpSymbol: string, snapshotUrl: string, fetched: Option<int>) returns (h: Handler?)
    ensures fetched.None? ==> h == null
    ensures fetched.Some? ==>
      && h != null && fresh(h) && fresh(h.tradingPairOb)
      && h.State() == Initial(fetched.value) && h.pairSymbol == tpSymbol && h.snapshotUrl == snapshotUrl
  {
    match fetched {
      case None =>
        return null;
      case Some(id) =>
        h := new Handler(tpSymbol, snapshotUrl, id);
    }
  }

  // ---------------------------------------------------------------------
  // One event

  /** An event older than the snapshot is dropped without any change. */
  lemma StaleEventDiscarded(s: HandlerState, e: DepthUpdate, refetched: Option<int>, parse: Parser)
    requires e.finalUpdateId < s.snapshotLastUpdateId
    ensures Step(s, Some(e), refetched, parse) == Transition(s, Stale)
  {
  }

  /** An event whose final id equals the snapshot id is not stale: it is
      either applied or, after the first event, checked for a gap. */
  lemma SnapshotBoundaryNotStale(s: HandlerState, e: DepthUpdate, refetched: Option<int>, parse: Parser)
    requires e.finalUpdateId == s.snapshotLastUpdateId
    ensures Step(s, Some(e), refetched, parse).outcome != Stale
  {
  }

  /** A gap in the `pu` chain after the first event: the event is not applied;
      a successful refetch replaces the snapshot id and nothing else, a failed
      one changes nothing and returns its error. */
  lemma GapRefetchesSnapshot(s: HandlerState, e: DepthUpdate, refetched: Option<int>, parse: Parser)
    requires e.finalUpdateId >= s.snapshotLastUpdateId
    requires s.firstEventProcessed && e.previousFinalUpdateId != s.previousEventFinalUpdate
    ensures Step(s, Some(e), refetched, parse) ==
      match refetched
      case None => Transition(s, Failed(SnapshotFetchError))
      case Some(id) => Transition(s.(snapshotLastUpdateId := id), Resynced)
  {
  }

  /** The first event not older than the snapshot is applied whatever its `pu`,
      and from then on the handler counts as having processed an event, even
      when the update fails. */
  lemma FirstAdmissibleEventApplied(s: HandlerState, e: DepthUpdate, refetched: Option<int>, parse: Parser)
    requires !s.firstEventProcessed && e.finalUpdateId >= s.snapshotLastUpdateId
    ensures var t := Step(s, Some(e), refetched, parse);
      t.state.firstEventProcessed && t.state.snapshotLastUpdateId == s.snapshotLastUpdateId
      && t.state.asks == MapOrderBook.ApplyUpdates(s.asks, e.asks, parse).levels
      && t.outcome !in {Stale, Resynced}
  {
  }

  /** An `Applied` outcome means the event was admissible and both sides
      updated without error; then the asks and the bids take the batch and the
      chain advances to the event's `u`. `CleanEventApplied` is the converse. */
  lemma AppliedAdvancesChain(s: HandlerState, e: DepthUpdate, refetched: Option<int>, parse: Parser)
    requires Step(s, Some(e), refetched, parse).outcome == Applied
    ensures e.finalUpdateId >= s.snapshotLastUpdateId
    ensures !s.firstEventProcessed || e.previousFinalUpdateId == s.previousEventFinalUpdate
    ensures Step(s, Some(e), refetched, parse).state == s.(
      firstEventProcessed := true,
      previousEventFinalUpdate := e.finalUpdateId,
      asks := MapOrderBook.ApplyUpdates(s.asks, e.asks, parse).levels,
      bids := MapOrderBook.ApplyUpdates(s.bids, e.bids, parse).levels)
  {
  }

  /** Conversely, an event that is not stale, keeps the `pu` chain (or is the
      first one taken) and updates both sides without error is applied: the
      flag is set, both sides take the batch and the event's `u` is recorded. */
  lemma CleanEventApplied(s: HandlerState, e: DepthUpdate, refetched: Option<int>, parse: Parser)
    requires e.finalUpdateId >= s.snapshotLastUpdateId
    requires !s.firstEventProcessed || e.previousFinalUpdateId == s.previousEventFinalUpdate
    requires MapOrderBook.StatusOf(MapOrderBook.ApplyUpdates(s.asks, e.asks, parse), parse) == MapOrderBook.Quoted
    requires MapOrderBook.StatusOf(MapOrderBook.ApplyUpdates(s.bids, e.bids, parse), parse) == MapOrderBook.Quoted
    ensures Step(s, Some(e), refetched, parse) == Transition(s.(
      firstEventProcessed := true,
      previousEventFinalUpdate := e.finalUpdateId,
      asks := MapOrderBook.ApplyUpdates(s.asks, e.asks, parse).levels,
      bids := MapOrderBook.ApplyUpdates(s.bids, e.bids, parse).levels), Applied)
  {
  }

  /** A failing update leaves the chain where it was, yet the event counts as
      processed and the asks (and, when the bids fail, the bids updated before
      the failing one) keep what was applied. */
  lemma FailedUpdateIsPartial(s: HandlerState, e: DepthUpdate, refetched: Option<int>, parse: Parser)
    requires Step(s, Some(e), refetched, parse).outcome == Failed(ParseError)
    ensures var t := Step(s, Some(e), refetched, parse).state;
      t.previousEventFinalUpdate == s.previousEventFinalUpdate
      && t.snapshotLastUpdateId == s.snapshotLastUpdateId
      && t.firstEventProcessed
      && t.asks == MapOrderBook.ApplyUpdates(s.asks, e.asks, parse).levels
      && (t.bids == s.bids || t.bids == MapOrderBook.ApplyUpdates(s.bids, e.bids, parse).levels)
  {
  }

  // ---------------------------------------------------------------------
  // A stream of events

  /** `firstEventProcessed` is never reset: once an event has been taken, the
      handler never goes back to accepting an event regardless of its `pu`. */
  lemma {:induction false} ProcessedStaysProcessed(s: HandlerState, deliveries: seq<Delivery>, parse: Parser)
    requires s.firstEventProcessed
    ensures Run(s, deliveries, parse).firstEventProcessed
    decreases |deliveries|
  {
    if deliveries != [] {
      var t := Step(s, deliveries[0].message, deliveries[0].refetched, parse);
      if t.outcome != Panicked {
        ProcessedStaysProcessed(t.state, deliveries[1..], parse);
      }
    }
  }

  /** After a gap, a refetch moves only the snapshot id, so the chain still
      expects the old `u`: as long as no event carries that `pu`, no event is
      ever applied again and the book and chain stay frozen, whatever the
      snapshot fetches return. */
  lemma {:induction false} GapIsPermanent(s: HandlerState, deliveries: seq<Delivery>, parse: Parser)
    requires s.firstEventProcessed
    requires forall i :: 0 <= i < |deliveries| && deliveries[i].message.Some? ==>
      deliveries[i].message.value.previousFinalUpdateId != s.previousEventFinalUpdate
    ensures var r := Run(s, deliveries, parse);
      r.asks == s.asks && r.bids == s.bids && r.firstEventProcessed
      && r.previousEventFinalUpdate == s.previousEventFinalUpdate
    decreases |deliveries|
  {
    if deliveries != [] {
      var t := Step(s, deliveries[0].message, deliveries[0].refetched, parse);
      var rest := deliveries[1..];
      assert forall i :: 0 <= i < |rest| ==> rest[i] == deliveries[i + 1];
      GapIsPermanent(t.state, rest, parse);
    }
  }

  /** The first event of a freshly initialised handler that leaves the ask
      side empty (for example an event with bids only) panics: the book starts
      empty, and an empty side cannot be indexed for its best price. */
  lemma EmptyAskSidePanics(lastUpdateId: int, e: DepthUpdate, refetched: Option<int>, parse: Parser)
    requires e.finalUpdateId >= lastUpdateId && e.asks == []
    ensures Step(Initial(lastUpdateId), Some(e), refetched, parse).outcome == Panicked
  {
    assert MapOrderBook.ApplyUpdates(map[], [], parse) == MapOrderBook.Applied(map[], false);
  }
}
