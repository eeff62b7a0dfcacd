/** The deterministic paper venue: every per-order log it writes is a legal run of the order machine. */
module DeterministicVenue {
  import opened Wrappers
  import opened Sums
  import opened MoneyMath
  import opened OrderMachine
  import opened Rows
  import opened ExecutionService

  datatype Request = Request(order: OrderId, side: Side, typ: OrderType, qty: nat, limit: Option<Px>)

  datatype Quote = Quote(ask: Option<Px>, bid: Option<Px>, last: Px, recent: bool)

  /** What the market-data provider answers: None where the call throws. */
  datatype Market = Market(isOpen: Option<bool>, quote: Option<Quote>)

  /** flatFee is per fill; chunkFills cuts a fill into pieces of that size, 0 into one. */
  datatype Config = Config(chunkFills: nat, slippageBps: nat, flatFee: Money, enforceHours: bool)

  datatype RestStatus = Working | CancelRequested | Ended
  datatype Resting = Resting(req: Request, filled: nat, status: RestStatus)

  // ---- following a log ----

  /** The events of one order, in log order. */
  function For(log: seq<Event>, order: OrderId): seq<Event> {
    if log == [] then []
    else
      var last := log[|log| - 1];
      For(log[..|log| - 1], order) + if last.order == order then [last] else []
  }

  lemma ForAppend(log: seq<Event>, e: Event, order: OrderId)
    ensures For(log + [e], order) == For(log, order) + if e.order == order then [e] else []
  {
  }

  /** The order after events that applyTransition accepts one by one; None at the first it does not. */
  function Follow(o: Order, events: seq<Event>): Option<Order> {
    if events == [] then Some(o)
    else
      var e := events[|events| - 1];
      match Follow(o, events[..|events| - 1])
      case None => None
      case Some(at) =>
        match Advance(at, e.kind, if e.IsFill() then e.execution else None)
        case Moved(_, next) => Some(next)
        case _ => None
  }

  /** An order as placed, before anything is known of it. */
  ghost predicate Fresh(o: Order, req: Request) {
    && o.state.PendingSubmission? && o.filledQty == 0 && o.qty == req.qty && o.side == req.side && o.typ == req.typ
  }

  function ShadowOf(req: Request): Order {
    Order(req.side, req.typ, 0, req.qty, req.limit, 0, PendingSubmission, 0, 0, false)
  }

  /** What decides acceptance; the reservation does not. */
  ghost predicate SameProgress(a: Order, b: Order) {
    a.state == b.state && a.filledQty == b.filledQty && a.qty == b.qty
  }

  lemma {:induction false} FollowSameProgress(a: Order, b: Order, events: seq<Event>)
    requires SameProgress(a, b)
    ensures Follow(a, events).Some? <==> Follow(b, events).Some?
    ensures Follow(a, events).Some? ==> SameProgress(Follow(a, events).value, Follow(b, events).value)
  {
    if events != [] {
      var before, e := events[..|events| - 1], events[|events| - 1];
      FollowSameProgress(a, b, before);
      if Follow(a, before).Some? {
        AdvanceSameProgress(Follow(a, before).value, Follow(b, before).value, e.kind, if e.IsFill() then e.execution else None);
      }
      hide Advance, SameProgress;
    }
  }

  lemma AdvanceSameProgress(a: Order, b: Order, kind: EventKind, x: Option<Execution>)
    requires SameProgress(a, b)
    ensures Advance(a, kind, x).Moved? <==> Advance(b, kind, x).Moved?
    ensures Advance(a, kind, x).Moved? ==> SameProgress(Advance(a, kind, x).order, Advance(b, kind, x).order)
  {
  }

  function SizeOf(e: Event): int { if e.IsFill() && e.execution.Some? then e.execution.value.qty else 0 }

  /** What the last event of an accepted log does. */
  lemma LastFollowed(o: Order, events: seq<Event>) returns (before: Order, after: Order)
    requires events != [] && Follow(o, events).Some?
    ensures Follow(o, events[..|events| - 1]) == Some(before) && Follow(o, events) == Some(after)
    ensures !before.state.Filled? && after.qty == before.qty
    ensures after.filledQty == before.filledQty + SizeOf(events[|events| - 1])
    ensures events[|events| - 1].kind.OrderFilled? <==> after.state.Filled?
    ensures after.state.Filled? ==> after.filledQty == after.qty
  {
    before, after := Follow(o, events[..|events| - 1]).value, Follow(o, events).value;
    hide Follow;
    PlanFromFilled(before.state, events[|events| - 1].kind);
  }

  /** Nothing follows ORDER_FILLED in an accepted log. */
  lemma {:induction false} FilledComesLast(o: Order, events: seq<Event>, i: nat)
    requires Follow(o, events).Some? && i < |events| && events[i].kind.OrderFilled?
    ensures i == |events| - 1 && Follow(o, events).value.state.Filled?
  {
    var n := |events| - 1;
    var before, after := LastFollowed(o, events);
    if i < n { FilledComesLast(o, events[..n], i); }
    hide Follow, SizeOf;
  }

  /** Along an accepted log: fills add up, and ORDER_FILLED can only come last, completing the order. */
  lemma {:induction false} FollowedLog(o: Order, events: seq<Event>)
    requires Follow(o, events).Some? && o.state.PendingSubmission?
    ensures Follow(o, events).value.filledQty == o.filledQty + SumOf(events, SizeOf)
    ensures Follow(o, events).value.qty == o.qty
    ensures forall i | 0 <= i < |events| && events[i].kind.OrderFilled? ::
      i == |events| - 1 && Follow(o, events).value.state.Filled? && Follow(o, events).value.filledQty == o.qty
    ensures Follow(o, events).value.state.Filled? ==> events != [] && events[|events| - 1].kind.OrderFilled?
  {
    if events != [] {
      var before, after := LastFollowed(o, events);
      FollowedLog(o, events[..|events| - 1]);
      hide Follow, SizeOf;
      forall i | 0 <= i < |events| && events[i].kind.OrderFilled? ensures i == |events| - 1 {
        FilledComesLast(o, events, i);
      }
    }
  }

  lemma PlanFromFilled(state: OrderState, kind: EventKind)
    ensures state.Filled? ==> (!kind.UnknownVendorStatus? ==> Plan(state, kind).None?)
    ensures Plan(state, kind).Some? && !kind.UnknownVendorStatus? ==>
      var steps := Plan(state, kind).value;
      (steps != [] ==> steps[|steps| - 1].to == kind.Target()) && (steps == [] ==> kind.Target() == state)
  {
  }

  /** How a remaining quantity is cut: whole when chunk is 0 or no smaller than what remains. */
  function ChunkSize(remaining: nat, chunk: nat): nat {
    if 0 < chunk < remaining then chunk else remaining
  }

  /** A LIMIT fill is never worse than its limit. */
  ghost predicate WithinLimit(req: Request, price: Px) {
    req.typ.Limit? && req.limit.Some? ==>
      if req.side.Buy? then price <= req.limit.value else req.limit.value <= price
  }

  /** A legal edge of the table, with a fill that neither overfills nor claims a completion it is not. */
  ghost predicate CanTake(at: Order, kind: EventKind, size: nat) {
    && !kind.UnknownVendorStatus? && kind.Target() in Legal(at.state)
    && at.filledQty + size <= at.qty && (kind.OrderFilled? ==> at.filledQty + size == at.qty)
  }

  lemma Taken(at: Order, kind: EventKind, x: Option<Execution>) returns (next: Order)
    requires CanTake(at, kind, if x.Some? then x.value.qty else 0)
    ensures Advance(at, kind, x).Moved? && next == Advance(at, kind, x).order
    ensures next.state == kind.Target() && next.qty == at.qty
    ensures next.filledQty == at.filledQty + if x.Some? then x.value.qty else 0
  {
    PlanIsLegal(at.state, kind);
    next := Advance(at, kind, x).order;
  }

  /** Event ids are log positions, and so are execution ids. */
  ghost predicate Numbered(log: seq<Event>) {
    forall i | 0 <= i < |log| ::
      log[i].ext == Some(StreamId(i)) && (log[i].execution.Some? ==> log[i].execution.value.id == i)
  }

  ghost predicate PriceOk(e: Event, requests: map<OrderId, Request>) {
    e.IsFill() ==>
      e.order in requests && e.execution.Some? && WithinLimit(requests[e.order], e.execution.value.price)
  }

  /** No limit fill in the log is worse than its limit. */
  ghost predicate Priced(log: seq<Event>, requests: map<OrderId, Request>) {
    forall i | 0 <= i < |log| :: PriceOk(log[i], requests)
  }

  lemma PricedAppend(log: seq<Event>, requests: map<OrderId, Request>, e: Event)
    requires Priced(log, requests) && PriceOk(e, requests)
    ensures Priced(log + [e], requests)
  {
  }

  lemma FollowOne(o: Order, events: seq<Event>, at: Order, e: Event) returns (next: Order)
    requires Follow(o, events) == Some(at) && (e.IsFill() <==> e.execution.Some?)
    requires CanTake(at, e.kind, if e.execution.Some? then e.execution.value.qty else 0)
    ensures Follow(o, events + [e]) == Some(next)
    ensures next.state == e.kind.Target() && next.qty == at.qty
    ensures next.filledQty == at.filledQty + if e.execution.Some? then e.execution.value.qty else 0
  {
    next := Taken(at, e.kind, e.execution);
    assert (events + [e])[..|events|] == events;
  }

  /** The reference price of a market fill after slippage; None where Px refuses it. */
  function MarketPrice(req: Request, quote: Quote, slippageBps: nat): Option<Px> {
    var reference := if req.side.Buy? then (if quote.ask.Some? then quote.ask.value else quote.last)
                     else (if quote.bid.Some? then quote.bid.value else quote.last);
    if slippageBps == 0 then Some(reference)
    else
      var moved := HalfEven(reference * (if req.side.Buy? then 10000 + slippageBps else 10000 - slippageBps), 10000);
      if 0 < moved then Some(moved) else None
  }

  /** The price at which the market takes a resting LIMIT order, if it does. */
  function RestPrice(req: Request, market: Market, config: Config): (price: Option<Px>)
    ensures price.Some? ==> WithinLimit(req, price.value)
  {
    if !req.typ.Limit? || market.isOpen.None? || (config.enforceHours && !market.isOpen.value) then None
    else if market.quote.None? || req.limit.None? then None
    else if req.side.Buy? then
      var ask := if market.quote.value.ask.Some? then market.quote.value.ask.value else market.quote.value.last;
      if ask <= req.limit.value then Some(ask) else None
    else
      var bid := if market.quote.value.bid.Some? then market.quote.value.bid.value else market.quote.value.last;
      if req.limit.value <= bid then Some(bid) else None
  }

  /** The side of the quote an order trades against; the last price where the quote lacks it. */
  ghost predicate Touches(side: Side, quote: Quote, price: Px) {
    match side
    case Buy => quote.ask == Some(price) || (quote.ask.None? && quote.last == price)
    case Sell => quote.bid == Some(price) || (quote.bid.None? && quote.last == price)
  }

  /** The market takes a resting order exactly when it trades and its price is at the limit or better. */
  lemma RestPriceIs(req: Request, market: Market, config: Config, price: Px)
    ensures RestPrice(req, market, config) == Some(price) <==>
      && req.typ.Limit? && req.limit.Some? && market.isOpen.Some? && (market.isOpen.value || !config.enforceHours)
      && market.quote.Some? && Touches(req.side, market.quote.value, price) && WithinLimit(req, price)
  {
  }

  /** A market order trades at that price, moved against it by the slippage and rounded once. */
  lemma MarketPriceIs(req: Request, quote: Quote, slippageBps: nat, price: Px, paid: Px)
    requires Touches(req.side, quote, price)
    ensures MarketPrice(req, quote, slippageBps) == Some(paid) <==>
      IsHalfEven(price * (if req.side.Buy? then 10000 + slippageBps else 10000 - slippageBps), 10000, paid)
    ensures MarketPrice(req, quote, slippageBps) == Some(paid) ==> if req.side.Buy? then price <= paid else paid <= price
  {
    hide HalfEven, IsHalfEven;
    var factor := if req.side.Buy? then 10000 + slippageBps else 10000 - slippageBps;
    HalfEvenExact(price, 10000);
    Slipped(price, factor, paid);
    if slippageBps == 0 { assert HalfEven(price * factor, 10000) == price; }
  }

  lemma Slipped(price: Px, factor: int, paid: Px)
    ensures HalfEven(price * factor, 10000) == paid <==> IsHalfEven(price * factor, 10000, paid)
    ensures IsHalfEven(price * factor, 10000, paid) ==>
      (10000 <= factor ==> price <= paid) && (factor <= 10000 ==> paid <= price)
  {
    hide HalfEven, IsHalfEven;
    HalfEvenExact(price, 10000);
    if IsHalfEven(price * factor, 10000, paid) { HalfEvenUnique(price * factor, 10000, paid, HalfEven(price * factor, 10000)); }
    if 10000 <= factor {
      Stretch(price, 10000, factor);
      HalfEvenMonotone(price * 10000, price * factor, 10000);
    } else {
      Stretch(price, factor, 10000);
      HalfEvenMonotone(price * factor, price * 10000, 10000);
    }
  }

  /** Fills of `chunk` shares each at one price, none of them the last. */
  ghost predicate Partials(events: seq<Event>, qty: int, price: Px, config: Config) {
    && SumOf(events, SizeOf) == qty
    && forall i | 0 <= i < |events| ::
         && events[i].kind.OrderPartiallyFilled? && events[i].execution.Some?
         && events[i].execution.value.price == price && events[i].execution.value.fee == config.flatFee
         && 0 < events[i].execution.value.qty == config.chunkFills
  }

  /** `qty` shares filled whole at one price, each fill for the flat fee, cut only where chunks say so. */
  ghost predicate FilledWhole(events: seq<Event>, qty: int, price: Px, config: Config) {
    && events != []
    && var last := events[|events| - 1];
    && last.kind.OrderFilled? && last.execution.Some?
    && last.execution.value.price == price && last.execution.value.fee == config.flatFee
    && 0 < last.execution.value.qty && (0 < config.chunkFills ==> last.execution.value.qty <= config.chunkFills)
    && Partials(events[..|events| - 1], qty - last.execution.value.qty, price, config)
  }

  lemma SomethingFilled(events: seq<Event>, qty: int, price: Px, config: Config)
    requires FilledWhole(events, qty, price, config)
    ensures events != []
  {
  }

  lemma NoPieces(price: Px, config: Config)
    ensures Partials([], 0, price, config)
  {
  }

  lemma AnotherPiece(pieces: seq<Event>, qty: int, price: Px, config: Config, e: Event)
    requires Partials(pieces, qty, price, config) && e.IsFill() && e.execution.Some?
    requires e.execution.value.price == price && e.execution.value.fee == config.flatFee && 0 < e.execution.value.qty
    requires 0 < config.chunkFills ==> e.execution.value.qty <= config.chunkFills
    ensures e.kind.OrderPartiallyFilled? && e.execution.value.qty == config.chunkFills ==>
      Partials(pieces + [e], qty + e.execution.value.qty, price, config)
    ensures e.kind.OrderFilled? ==> FilledWhole(pieces + [e], qty + e.execution.value.qty, price, config)
  {
    SumAppend(pieces, e, SizeOf);
    assert (pieces + [e])[..|pieces|] == pieces;
  }

  /** The market has reached a working order's limit. */
  predicate Reaches(r: Resting, market: Market, config: Config) {
    r.status.Working? && RestPrice(r.req, market, config).Some?
  }

  /** Where a fresh submission ends, from the provider's answers alone. */
  function Reached(req: Request, market: Market, again: Market, config: Config): OrderState {
    if market.isOpen.None? then Acknowledged
    else if config.enforceHours && !market.isOpen.value then Rejected
    else if market.quote.None? then Acknowledged
    else if req.typ.Market? && !market.quote.value.recent then Rejected
    else if req.typ.Market? then
      if MarketPrice(req, market.quote.value, config.slippageBps).Some? then Filled else Accepted
    else if RestPrice(req, again, config).Some? then Filled
    else Accepted
  }

  /** The venue's own record of an order agrees with the machine that followed its log. */
  ghost predicate Tracked(req: Request, entry: Option<Resting>, events: seq<Event>) {
    && 0 < req.qty && Follow(ShadowOf(req), events).Some?
    && var o := Follow(ShadowOf(req), events).value;
    && o.qty == req.qty
    && (entry.None? ==> (o.state.Acknowledged? || o.state.Rejected?) && o.filledQty == 0)
    && (entry.Some? ==>
      && entry.value.req == req && entry.value.filled == o.filledQty
      && (entry.value.status.Working? ==> o.state.Accepted? && o.filledQty == 0)
      && !entry.value.status.CancelRequested?
      && (entry.value.status.Ended? ==> o.state.Terminal()))
  }

  function EntryOf(resting: map<OrderId, Resting>, order: OrderId): Option<Resting> {
    if order in resting then Some(resting[order]) else None
  }

  ghost predicate AllTracked(log: seq<Event>, resting: map<OrderId, Resting>, requests: map<OrderId, Request>) {
    && resting.Keys <= requests.Keys
    && forall c {:trigger For(log, c)} ::
         if c in requests then requests[c].order == c && Tracked(requests[c], EntryOf(resting, c), For(log, c))
         else For(log, c) == []
  }

  /** Work on one order leaves every other order tracked. */
  lemma {:induction false} OneChanged(log: seq<Event>, resting: map<OrderId, Resting>, requests: map<OrderId, Request>,
                                      order: OrderId,
                   log': seq<Event>, resting': map<OrderId, Resting>, requests': map<OrderId, Request>)
    requires AllTracked(log, resting, requests) && OnlyGrew(log, log', order)
    requires forall c | c != order :: EntryOf(resting', c) == EntryOf(resting, c)
    requires order in requests' && requests' == requests[order := requests'[order]] && requests'[order].order == order
    requires Tracked(requests'[order], EntryOf(resting', order), For(log', order))
    ensures AllTracked(log', resting', requests')
  {
    forall c | c in resting' ensures c in requests' {
      if c != order { assert EntryOf(resting', c) == EntryOf(resting, c); }
    }
  }

  lemma {:induction false} NoneYet(log: seq<Event>, order: OrderId)
    requires For(log, order) == []
    ensures forall i | 0 <= i < |log| :: log[i].order != order
  {
    if log != [] { NoneYet(log[..|log| - 1], order); }
  }

  lemma NotYet(log: seq<Event>, resting: map<OrderId, Resting>, requests: map<OrderId, Request>, req: Request)
    requires AllTracked(log, resting, requests) && Priced(log, requests) && req.order !in requests
    ensures For(log, req.order) == [] && EntryOf(resting, req.order) == None
    ensures Priced(log, requests[req.order := req])
    ensures Follow(ShadowOf(req), []) == Some(ShadowOf(req))
  {
    NoneYet(log, req.order);
    forall i | 0 <= i < |log| ensures PriceOk(log[i], requests[req.order := req]) { assert PriceOk(log[i], requests); }
  }

  lemma AcknowledgedTracked(req: Request, events: seq<Event>, at: Order)
    requires 0 < req.qty && Follow(ShadowOf(req), events) == Some(at)
    requires at.state.Acknowledged? && at.filledQty == 0 && at.qty == req.qty
    ensures Tracked(req, None, events)
  {
  }

  lemma FilledTracked(req: Request, events: seq<Event>)
    requires 0 < req.qty && Follow(ShadowOf(req), events).Some?
    requires var o := Follow(ShadowOf(req), events).value; o.state.Filled? && o.filledQty == o.qty == req.qty
    ensures Tracked(req, Some(Resting(req, req.qty, Ended)), events)
  {
  }

  class Venue {
    const config: Config
    const clock: nat -> int  // the clock's reading when the n-th event is logged
    var resting: map<OrderId, Resting>
    var submitted: set<OrderId>
    var log: seq<Event>
    ghost var requests: map<OrderId, Request>  // everything ever submitted

    constructor (config: Config, clock: nat -> int)
      ensures Valid() && log == [] && requests == map[]
    {
      this.config, this.clock := config, clock;
      resting, log, requests, submitted := map[], [], map[], {};
    }

    /** Where the order machine is after what this venue has logged for an order. */
    ghost function Mirror(order: OrderId): Option<Order>
      reads this
      requires order in requests
    {
      Follow(ShadowOf(requests[order]), For(log, order))
    }

    ghost predicate Valid()
      reads this
    {
      && LogOk() && requests.Keys == submitted
      && AllTracked(log, resting, requests)
    }

    ghost predicate LogOk()
      reads this
    {
      Numbered(log) && Priced(log, requests)
    }

    /** Ids are numbered by log position, so no two events share one. */
    function Logged(at: nat, order: OrderId, kind: EventKind, size: nat, price: Option<Px>): Event {
      Event(kind, order, Some(StreamId(at)),
            if price.Some? then Some(Execution(at, size, price.value, config.flatFee, clock(at), false)) else None)
    }

    /** Log one event the followed order can take; every other order's log is untouched. */
    method Emit(req: Request, kind: EventKind, size: nat, price: Option<Px>, ghost at: Order) returns (ghost next: Order)
      requires LogOk() && req.order in requests && requests[req.order] == req
      requires (kind.IsFill() <==> price.Some?) && (price.Some? ==> WithinLimit(req, price.value))
      requires Follow(ShadowOf(req), For(log, req.order)) == Some(at) && CanTake(at, kind, if price.Some? then size else 0)
      modifies this`log
      ensures LogOk() && log == old(log) + [Logged(|old(log)|, req.order, kind, size, price)]
      ensures Follow(ShadowOf(req), For(log, req.order)) == Some(next)
      ensures next.state == kind.Target() && next.qty == at.qty
      ensures next.filledQty == at.filledQty + if price.Some? then size else 0
      ensures For(log, req.order) == For(old(log), req.order) + [Logged(|old(log)|, req.order, kind, size, price)]
      ensures forall c | c != req.order :: For(log, c) == For(old(log), c)
    {
      hide CanTake, Follow, For, WithinLimit;
      var e := Logged(|log|, req.order, kind, size, price);
      next := FollowOne(ShadowOf(req), For(log, req.order), at, e);
      forall c ensures For(log + [e], c) == For(log, c) + if e.order == c then [e] else [] { ForAppend(log, e, c); }
      PricedAppend(log, requests, e);
      log := log + [e];
    }

    /** The loop of `fill`: chunks until the quantity is complete. */
    method EmitFills(req: Request, start: nat, price: Px, ghost accepted: Order) returns (filled: nat)
      requires LogOk() && req.order in requests && requests[req.order] == req && WithinLimit(req, price)
      requires Follow(ShadowOf(req), For(log, req.order)) == Some(accepted)
      requires accepted.state.Accepted? && accepted.qty == req.qty && accepted.filledQty == start < req.qty
      modifies this`log
      ensures LogOk() && old(log) <= log && filled == req.qty
      ensures forall c | c != req.order :: For(log, c) == For(old(log), c)
      ensures var o := Follow(ShadowOf(req), For(log, req.order));
        o.Some? && o.value.state.Filled? && o.value.filledQty == o.value.qty == req.qty
      ensures For(old(log), req.order) <= For(log, req.order)
      ensures FilledWhole(For(log, req.order)[|For(old(log), req.order)|..], req.qty - start, price, config)
    {
      hide Partials, FilledWhole;
      hide Numbered, Priced, For, Follow, ShadowOf, WithinLimit, LogOk;
      filled := start;
      ghost var at := accepted;
      ghost var before, pieces := For(log, req.order), [];
      assert Partials([], 0, price, config) by { NoPieces(price, config); }
      while filled < req.qty
        invariant filled <= req.qty && Follow(ShadowOf(req), For(log, req.order)) == Some(at)
        invariant at.qty == req.qty && at.filledQty == filled
        invariant if filled == req.qty then at.state.Filled? else at.state.Accepted? || at.state.PartiallyFilled?
        invariant LogOk() && old(log) <= log && forall c | c != req.order :: For(log, c) == For(old(log), c)
        invariant For(log, req.order) == before + pieces
        invariant if filled == req.qty then FilledWhole(pieces, filled - start, price, config)
                  else Partials(pieces, filled - start, price, config)
      {
        ghost var piece := ChunkSize(req.qty - filled, config.chunkFills);
        ghost var kind := if filled + piece == req.qty then OrderFilled else OrderPartiallyFilled;
        ghost var e := Logged(|log|, req.order, kind, piece, Some(price));
        AnotherPiece(pieces, filled - start, price, config, e);
        assert before + pieces + [e] == before + (pieces + [e]);
        pieces := pieces + [e];
        var size := ChunkSize(req.qty - filled, config.chunkFills);
        var isFinal := filled + size == req.qty;
        at := Emit(req, if isFinal then OrderFilled else OrderPartiallyFilled, size, Some(price), at);
        filled := filled + size;
        if config.chunkFills == 0 { break; }
      }
    }

    /** fill: everything that remains, at one price. */
    method Fill(order: OrderId, price: Px)
      requires Valid() && order in resting && resting[order].status.Working? && WithinLimit(resting[order].req, price)
      modifies this`log, this`resting
      ensures Valid() && resting == old(resting)[order := Resting(old(resting)[order].req, requests[order].qty, Ended)]
      ensures OnlyGrew(old(log), log, order) && Mirror(order).value.state.Filled?
      ensures For(old(log), order) <= For(log, order)
      ensures FilledWhole(For(log, order)[|For(old(log), order)|..], requests[order].qty, price, config)
    {
      hide FilledWhole, For, Follow, Numbered, Priced, AllTracked, ShadowOf, WithinLimit;
      RestingTracked(log, resting, requests, order);
      var req := resting[order].req;
      var filled := EmitFills(req, resting[order].filled, price, Mirror(order).value);
      resting := resting[order := Resting(req, filled, Ended)];
      FilledTracked(req, For(log, order));
      OneChanged(old(log), old(resting), requests, order, log, resting, requests);
    }

    /** evaluateResting: a working LIMIT order fills if the market has reached its limit. */
    method EvaluateResting(order: OrderId, market: Market)
      requires Valid()
      modifies this`log, this`resting
      ensures Valid() && OnlyGrew(old(log), log, order)
      ensures
        if EntryOf(old(resting), order).Some? && Reaches(old(resting)[order], market, config) then
          resting == old(resting)[order := Resting(old(resting)[order].req, requests[order].qty, Ended)]
          && Mirror(order).value.state.Filled?
        else resting == old(resting) && log == old(log)
      ensures order in old(resting) ==>
        && order in requests && order in resting && resting == old(resting)[order := resting[order]]
        && Stirred(old(resting)[order], resting[order], market, config, requests[order], For(old(log), order), For(log, order))
    {
      hide For, Follow, Numbered, Priced, AllTracked, RestPrice, FilledWhole;
      KeysTracked(log, resting, requests);
      if order in resting && Reaches(resting[order], market, config) {
        Fill(order, RestPrice(resting[order].req, market, config).value);
        FollowsOwn(log, resting, requests, order);
      }
    }

    /** tick: move the market; exactly the orders it has reached fill, and nothing else is logged. */
    method Tick(markets: OrderId -> Market)
      requires Valid()
      modifies this`log, this`resting
      ensures Valid() && old(log) <= log && resting.Keys == old(resting).Keys
      ensures forall c | c in old(resting) ::
        Stirred(old(resting)[c], resting[c], markets(c), config, requests[c], For(old(log), c), For(log, c))
      ensures forall c | c !in old(resting) :: For(log, c) == For(old(log), c)
    {
      hide For, Numbered, Priced, AllTracked, Reaches, Stirred, Swept, Follow;
      KeysTracked(log, resting, requests);
      NoneSwept(log, resting, requests, markets, config);
      var left := resting.Keys;
      while left != {}
        invariant Valid() && old(log) <= log && left <= resting.Keys == old(resting).Keys
        invariant Swept(left, old(log), old(resting), log, resting, requests, markets, config)
        decreases left
      {
        ghost var any := AnyOf(left);
        var c :| c in left;
        ghost var before, was := log, resting;
        EvaluateResting(c, markets(c));
        OneMoreSwept(left, old(log), old(resting), before, was, log, resting, requests, markets, config, c);
        left := left - {c};
      }
      AllSwept(old(log), old(resting), log, resting, requests, markets, config);
    }

    /** The record of a request nobody has submitted before. */
    method Acknowledge(req: Request) returns (ghost at: Order)
      requires Valid() && req.order !in submitted && 0 < req.qty
      modifies this`log, this`submitted, this`requests
      ensures Valid() && submitted == old(submitted) + {req.order} && requests == old(requests)[req.order := req]
      ensures OnlyGrew(old(log), log, req.order) && Mirror(req.order) == Some(at)
      ensures at.state.Acknowledged? && at.filledQty == 0 && at.qty == req.qty
      ensures |For(log, req.order)| == 1 && For(log, req.order)[0].kind.OrderAcknowledged?
    {
      hide AllTracked, Numbered, For, Follow, Priced;
      NotYet(log, resting, requests, req);
      submitted := submitted + {req.order};
      requests := requests[req.order := req];
      at := Emit(req, OrderAcknowledged, 0, None, ShadowOf(req));
      AcknowledgedTracked(req, For(log, req.order), at);
      OneChanged(old(log), resting, old(requests), req.order, log, resting, requests);
    }

    /** submit: `market` is what the first provider calls answer, `again` what evaluateResting is told. */
    method Submit(req: Request, market: Market, again: Market) returns (duplicate: bool)
      requires Valid() && 0 < req.qty
      modifies this
      ensures Valid() && OnlyGrew(old(log), log, req.order)
      ensures duplicate <==> req.order in old(submitted)
      ensures duplicate ==> log == old(log) && resting == old(resting) && requests == old(requests)
      ensures !duplicate ==> requests == old(requests)[req.order := req]
      ensures !duplicate ==>
        && Mirror(req.order).value.state == Reached(req, market, again, config)
        && Answered(For(log, req.order), req, market, again, config)
    {
      hide For, Follow, FilledWhole, Numbered, Priced;
      if req.order in submitted { return true; }
      duplicate := false;
      ghost var at := Acknowledge(req);
      var working := Admit(req, market, at);
      if !working { return; }
      if req.typ.Market? {
        var price := MarketPrice(req, market.quote.value, config.slippageBps);
        if price.Some? {
          Fill(req.order, price.value);
          SomethingFilled(For(log, req.order)[2..], req.qty, price.value, config);
        }
      } else {
        EvaluateResting(req.order, again);
        if Mirror(req.order).value.state.Filled? {
          SomethingFilled(For(log, req.order)[2..], req.qty, RestPrice(req, again, config).value, config);
        }
      }
    }

    /** Reject, or accept and rest. */
    method Admit(req: Request, market: Market, ghost acknowledged: Order) returns (working: bool)
      requires LogOk() && req.order in requests && requests[req.order] == req && requests.Keys == submitted
      requires Mirror(req.order) == Some(acknowledged) && req.order !in resting && 0 < req.qty
      requires acknowledged.state.Acknowledged? && acknowledged.filledQty == 0 && acknowledged.qty == req.qty
      requires AllTracked(log, resting, requests)
      modifies this`log, this`resting
      ensures Valid() && OnlyGrew(old(log), log, req.order)
      ensures working ==> req.order in resting && resting[req.order] == Resting(req, 0, Working) && market.quote.Some?
      ensures forall c | c != req.order :: EntryOf(resting, c) == EntryOf(old(resting), c)
      ensures working <==>
        && market.isOpen.Some? && (market.isOpen.value || !config.enforceHours)
        && market.quote.Some? && (req.typ.Limit? || market.quote.value.recent)
      ensures !working ==>
        Mirror(req.order).value.state ==
        if market.isOpen.None? || ((market.isOpen.value || !config.enforceHours) && market.quote.None?) then Acknowledged
        else Rejected
      ensures For(old(log), req.order) <= For(log, req.order)
      ensures var known, now := For(old(log), req.order), For(log, req.order);
        if Mirror(req.order).value.state.Acknowledged? then now == known
        else |now| == |known| + 1 && (if working then now[|known|].kind.OrderAccepted? else now[|known|].kind.OrderRejected?)
    {
      hide AllTracked, Follow, For, Numbered, Priced;
      working := false;
      if market.isOpen.None? { return; }
      ghost var at := acknowledged;
      if config.enforceHours && !market.isOpen.value {
        at := Emit(req, OrderRejected, 0, None, at);
      } else {
        if market.quote.None? { return; }
        if req.typ.Market? && !market.quote.value.recent {
          at := Emit(req, OrderRejected, 0, None, at);
        } else {
          at := Emit(req, OrderAccepted, 0, None, at);
          resting := resting[req.order := Resting(req, 0, Working)];
          working := true;
        }
      }
      OneChanged(old(log), old(resting), requests, req.order, log, resting, requests);
    }

    /** cancel: refused once the order is gone; otherwise the log shows the cancel through. */
    method Cancel(order: OrderId) returns (accepted: bool)
      requires Valid()
      modifies this`log, this`resting
      ensures Valid() && OnlyGrew(old(log), log, order)
      ensures accepted <==> order in old(resting) && !old(resting)[order].status.Ended?
      ensures accepted ==>
        && Mirror(order).value.state.Cancelled? && resting == old(resting)[order := old(resting)[order].(status := Ended)]
        && CancelsThrough(For(old(log), order), For(log, order))
      ensures !accepted ==> log == old(log) && resting == old(resting)
    {
      hide Follow, For, Numbered, Priced;
      if order !in resting || resting[order].status.Ended? { return false; }
      var req := resting[order].req;
      ghost var at := Mirror(order).value;
      at := Emit(req, OrderCancelPending, 0, None, at);
      at := Emit(req, OrderCancelled, 0, None, at);
      resting := resting[order := resting[order].(status := Ended)];
      OneChanged(old(log), old(resting), requests, order, log, resting, requests);
      return true;
    }

    method ExpireOne(order: OrderId)
      requires Valid() && order in resting
      modifies this`log, this`resting
      ensures Valid() && OnlyGrew(old(log), log, order)
      ensures resting == old(resting)[order := old(resting)[order].(status := Ended)]
      ensures ExpiredAs(old(resting)[order], For(old(log), order), For(log, order))
    {
      hide Follow, For, Numbered, Priced, AllTracked, ShadowOf;
      RestingTracked(log, resting, requests, order);
      if resting[order].status.Ended? {
        assert resting == resting[order := resting[order].(status := Ended)];
        return;
      }
      ForAppend(log, Logged(|log|, order, OrderExpired, 0, None), order);
      ghost var at := Emit(resting[order].req, OrderExpired, 0, None, Mirror(order).value);
      resting := resting[order := resting[order].(status := Ended)];
      OneChanged(old(log), old(resting), requests, order, log, resting, requests);
    }

    /** expireDayOrders: exactly the orders still working log ORDER_EXPIRED, and then none works. */
    method ExpireDayOrders()
      requires Valid()
      modifies this`log, this`resting
      ensures Valid() && old(log) <= log && resting.Keys == old(resting).Keys
      ensures forall c | c in resting :: resting[c] == old(resting)[c].(status := Ended)
      ensures forall c | c in resting :: ExpiredAs(old(resting)[c], For(old(log), c), For(log, c))
      ensures forall c | c !in resting :: For(log, c) == For(old(log), c)
    {
      hide For, Follow, Numbered, Priced, AllTracked, ExpiredAs, Lapsed;
      NoneLapsed(log, resting);
      var left := resting.Keys;
      while left != {}
        invariant Valid() && old(log) <= log && left <= resting.Keys == old(resting).Keys
        invariant Lapsed(left, old(log), old(resting), log, resting)
        decreases left
      {
        ghost var any := AnyOf(left);
        var c :| c in left;
        ghost var before, was := log, resting;
        ExpireOne(c);
        OneMoreLapsed(left, old(log), old(resting), before, was, log, resting, c);
        left := left - {c};
      }
      AllLapsed(old(log), old(resting), log, resting);
    }
  }

  /** What moving the market does to one resting order and its events. */
  ghost predicate Stirred(was: Resting, now: Resting, market: Market, config: Config, req: Request,
                          before: seq<Event>, after: seq<Event>) {
    if Reaches(was, market, config) then
      && now == Resting(was.req, req.qty, Ended)
      && before <= after && FilledWhole(after[|before|..], req.qty, RestPrice(was.req, market, config).value, config)
      && Follow(ShadowOf(req), after).Some? && Follow(ShadowOf(req), after).value.state.Filled?
    else now == was && after == before
  }

  /** One more event, ORDER_EXPIRED, for an order that had not ended; none for one that had. */
  ghost predicate ExpiredAs(was: Resting, before: seq<Event>, after: seq<Event>) {
    if was.status.Ended? then after == before
    else before < after && |after| == |before| + 1 && after[|before|].kind.OrderExpired?
  }

  /** Two more events: the cancel on its way, and the cancel. */
  ghost predicate CancelsThrough(before: seq<Event>, after: seq<Event>) {
    && before < after && |after| == |before| + 2
    && after[|before|].kind.OrderCancelPending? && after[|before| + 1].kind.OrderCancelled?
  }

  /** What a fresh submission logs: acknowledged, and then rejected, or accepted and perhaps filled whole. */
  ghost predicate Answered(events: seq<Event>, req: Request, market: Market, again: Market, config: Config) {
    && events != [] && events[0].kind.OrderAcknowledged?
    && match Reached(req, market, again, config)
       case Acknowledged => |events| == 1
       case Rejected => |events| == 2 && events[1].kind.OrderRejected?
       case Accepted => |events| == 2 && events[1].kind.OrderAccepted?
       case Filled =>
         && 2 < |events| && events[1].kind.OrderAccepted?
         && (req.typ.Market? ==>
              FilledWhole(events[2..], req.qty, MarketPrice(req, market.quote.value, config.slippageBps).value, config))
         && (req.typ.Limit? ==> FilledWhole(events[2..], req.qty, RestPrice(req, again, config).value, config))
       case _ => false
  }

  /** The orders of `left` and those that do not rest are as before. */
  ghost predicate Untouched(left: set<OrderId>, log: seq<Event>, resting: map<OrderId, Resting>,
                            log': seq<Event>, resting': map<OrderId, Resting>) {
    forall c | c in left || c !in resting :: EntryOf(resting', c) == EntryOf(resting, c) && For(log', c) == For(log, c)
  }

  /** The market has been moved for all resting orders but those of `left`. */
  ghost predicate Swept(left: set<OrderId>, log: seq<Event>, resting: map<OrderId, Resting>,
                        log': seq<Event>, resting': map<OrderId, Resting>, requests: map<OrderId, Request>,
                        markets: OrderId -> Market, config: Config) {
    && resting'.Keys == resting.Keys <= requests.Keys && Untouched(left, log, resting, log', resting')
    && forall c | c in resting && c !in left ::
         Stirred(resting[c], resting'[c], markets(c), config, requests[c], For(log, c), For(log', c))
  }

  lemma NoneSwept(log: seq<Event>, resting: map<OrderId, Resting>, requests: map<OrderId, Request>,
                  markets: OrderId -> Market, config: Config)
    requires resting.Keys <= requests.Keys
    ensures Swept(resting.Keys, log, resting, log, resting, requests, markets, config)
  {
  }

  lemma OneMoreSwept(left: set<OrderId>, log: seq<Event>, resting: map<OrderId, Resting>,
                     mid: seq<Event>, was: map<OrderId, Resting>, log': seq<Event>, resting': map<OrderId, Resting>,
                     requests: map<OrderId, Request>, markets: OrderId -> Market, config: Config, order: OrderId)
    requires Swept(left, log, resting, mid, was, requests, markets, config) && order in left && left <= resting.Keys
    requires OnlyGrew(mid, log', order) && order in resting' && resting' == was[order := resting'[order]]
    requires Stirred(was[order], resting'[order], markets(order), config, requests[order], For(mid, order), For(log', order))
    ensures Swept(left - {order}, log, resting, log', resting', requests, markets, config)
  {
    hide For, Stirred;
    assert EntryOf(was, order) == EntryOf(resting, order);
    forall c | c in left - {order} || c !in resting
      ensures EntryOf(resting', c) == EntryOf(resting, c) && For(log', c) == For(log, c)
    {
      assert EntryOf(was, c) == EntryOf(resting, c);
    }
  }

  lemma AllSwept(log: seq<Event>, resting: map<OrderId, Resting>, log': seq<Event>, resting': map<OrderId, Resting>,
                 requests: map<OrderId, Request>, markets: OrderId -> Market, config: Config)
    requires Swept({}, log, resting, log', resting', requests, markets, config)
    ensures resting'.Keys == resting.Keys <= requests.Keys
    ensures forall c | c in resting ::
      Stirred(resting[c], resting'[c], markets(c), config, requests[c], For(log, c), For(log', c))
    ensures forall c | c !in resting :: For(log', c) == For(log, c)
  {
    hide For, Stirred;
  }

  /** The day has ended for all resting orders but those of `left`. */
  ghost predicate Lapsed(left: set<OrderId>, log: seq<Event>, resting: map<OrderId, Resting>,
                         log': seq<Event>, resting': map<OrderId, Resting>) {
    && resting'.Keys == resting.Keys && Untouched(left, log, resting, log', resting')
    && forall c | c in resting && c !in left ::
         resting'[c] == resting[c].(status := Ended) && ExpiredAs(resting[c], For(log, c), For(log', c))
  }

  lemma NoneLapsed(log: seq<Event>, resting: map<OrderId, Resting>)
    ensures Lapsed(resting.Keys, log, resting, log, resting)
  {
  }

  lemma OneMoreLapsed(left: set<OrderId>, log: seq<Event>, resting: map<OrderId, Resting>,
                      mid: seq<Event>, was: map<OrderId, Resting>, log': seq<Event>, resting': map<OrderId, Resting>,
                      order: OrderId)
    requires Lapsed(left, log, resting, mid, was) && order in left && left <= resting.Keys
    requires OnlyGrew(mid, log', order) && resting' == was[order := was[order].(status := Ended)]
    requires ExpiredAs(was[order], For(mid, order), For(log', order))
    ensures Lapsed(left - {order}, log, resting, log', resting')
  {
    hide For, ExpiredAs;
    assert EntryOf(was, order) == EntryOf(resting, order);
    forall c | c in left - {order} || c !in resting
      ensures EntryOf(resting', c) == EntryOf(resting, c) && For(log', c) == For(log, c)
    {
      assert EntryOf(was, c) == EntryOf(resting, c);
    }
  }

  lemma AllLapsed(log: seq<Event>, resting: map<OrderId, Resting>, log': seq<Event>, resting': map<OrderId, Resting>)
    requires Lapsed({}, log, resting, log', resting')
    ensures forall c | c in resting ::
      resting'[c] == resting[c].(status := Ended) && ExpiredAs(resting[c], For(log, c), For(log', c))
    ensures forall c | c !in resting :: For(log', c) == For(log, c)
  {
    hide For, ExpiredAs;
  }

  lemma FollowsOwn(log: seq<Event>, resting: map<OrderId, Resting>, requests: map<OrderId, Request>, c: OrderId)
    requires AllTracked(log, resting, requests) && c in requests
    ensures Follow(ShadowOf(requests[c]), For(log, c)).Some?
  {
    hide Follow;
  }

  /** What is known of an order that rests, or did. */
  lemma RestingTracked(log: seq<Event>, resting: map<OrderId, Resting>, requests: map<OrderId, Request>, order: OrderId)
    requires AllTracked(log, resting, requests) && order in resting
    ensures order in requests && requests[order].order == order && resting[order].req == requests[order]
      && 0 < requests[order].qty
    ensures Follow(ShadowOf(requests[order]), For(log, order)).Some?
    ensures var at := Follow(ShadowOf(requests[order]), For(log, order)).value;
      && at.qty == requests[order].qty && at.filledQty == resting[order].filled
      && !resting[order].status.CancelRequested?
      && (resting[order].status.Working? ==> at.state.Accepted? && at.filledQty == 0)
  {
    assert Tracked(requests[order], EntryOf(resting, order), For(log, order));
  }

  lemma KeysTracked(log: seq<Event>, resting: map<OrderId, Resting>, requests: map<OrderId, Request>)
    requires AllTracked(log, resting, requests)
    ensures resting.Keys <= requests.Keys
  {
  }

  /** The log grew, by events of one order. */
  ghost predicate OnlyGrew(before: seq<Event>, after: seq<Event>, order: OrderId) {
    before <= after && forall c | c != order :: For(after, c) == For(before, c)
  }

  /**
   * The venue refines the order machine: whatever calls produced the log (Valid holds after each),
   * an order as placed accepts its events one by one; its fills add up to what the machine says is
   * filled, ORDER_FILLED comes last, once, and only with the full quantity, and an order that is
   * filled got there by it.
   */
  lemma LogRefinesMachine(log: seq<Event>, resting: map<OrderId, Resting>, requests: map<OrderId, Request>,
                          order: OrderId, o: Order)
    requires AllTracked(log, resting, requests) && order in requests && Fresh(o, requests[order])
    ensures var events := For(log, order); var end := Follow(o, events);
      && end.Some? && end.value.filledQty == SumOf(events, SizeOf) <= o.qty
      && (forall i | 0 <= i < |events| && events[i].kind.OrderFilled? :: i == |events| - 1 && SumOf(events, SizeOf) == o.qty)
      && (end.value.state.Filled? ==> events != [] && events[|events| - 1].kind.OrderFilled?)
  {
    var events := For(log, order);
    FollowSameProgress(ShadowOf(requests[order]), o, events);
    FollowedLog(o, events);
    NeverOverfilled(o, events);
  }

  lemma {:induction false} NeverOverfilled(o: Order, events: seq<Event>)
    requires o.filledQty <= o.qty && Follow(o, events).Some?
    ensures Follow(o, events).value.filledQty <= Follow(o, events).value.qty
  {
  }
}
