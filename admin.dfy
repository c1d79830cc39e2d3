/** admin.js: the orders table of the admin page. It colours each order by
    its status, keeps the loaded orders in a cache, and filters them by an
    inclusive range of calendar days. */
module Admin {
  import opened Js

  // ---------------------------------------------------------------------------
  // getStatusClass

  /** `getStatusClass(status)`: the badge class; the `switch` compares with
      `===`, so only the exact upper-case spellings match. */
  function StatusClass(status: Val): (c: string)
    ensures c in {"in-progress", "completed", "cancelled", ""}
  {
    if status == Str("ORDERED") || status == Str("PREPARING") then "in-progress"
    else if status == Str("SERVED") then "completed"
    else if status == Str("CANCELLED") then "cancelled"
    else ""
  }

  /** Each class belongs to exactly its statuses; a lower-case status, or the
      spelling "CANCELED" that the online-orders tab uses, gets no class. */
  lemma StatusClassCases(status: Val)
    ensures StatusClass(status) == "in-progress" <==> status in {Str("ORDERED"), Str("PREPARING")}
    ensures StatusClass(status) == "completed" <==> status == Str("SERVED")
    ensures StatusClass(status) == "cancelled" <==> status == Str("CANCELLED")
    ensures StatusClass(status) == "" <==>
      status !in {Str("ORDERED"), Str("PREPARING"), Str("SERVED"), Str("CANCELLED")}
    ensures StatusClass(Str("CANCELED")) == "" && StatusClass(Str("served")) == ""
  {
  }

  // ---------------------------------------------------------------------------
  // Rendering

  /** An order as the orders endpoint returns it; `orderDate` is the text that
      `new Date(...)` reads. */
  datatype Order = Order(orderId: Val, name: Val, orderDate: string, total: Val, orderStatus: Val)

  datatype OrderRow = OrderRow(order: Order, statusClass: string)

  /** What the orders area shows. */
  datatype OrdersView = NotShown | NoOrders | OrderRows(rows: seq<OrderRow>) | LoadFailed

  /** `renderOrders(orders)`: the empty message for no orders, otherwise one
      row per order in the given order. */
  function RenderOrders(orders: seq<Order>): (v: OrdersView)
    ensures v == NoOrders <==> orders == []
    ensures v.OrderRows? ==> (|v.rows| == |orders|
      && forall i :: 0 <= i < |orders| ==> v.rows[i] == OrderRow(orders[i], StatusClass(orders[i].orderStatus)))
  {
    if orders == [] then NoOrders
    else OrderRows(seq(|orders|, i requires 0 <= i < |orders| => OrderRow(orders[i], StatusClass(orders[i].orderStatus))))
  }

  // ---------------------------------------------------------------------------
  // The day-range filter

  /** A date input: empty, or a text that does not parse (`instant` gives
      `None`, an Invalid Date), is no bound. */
  function Bound(input: string, instant: string -> Option<int>): Option<int> {
    if input == "" then None else instant(input)
  }

  /** The filter test: the order's calendar day (`dayOf`, the local day
      number of an instant) is not before the start's day and not after the
      end's day. An order whose date does not parse compares false both
      ways and is therefore kept. */
  predicate InRange(o: Order, start: Option<int>, end: Option<int>,
                    instant: string -> Option<int>, dayOf: int -> int)
  {
    var d := instant(o.orderDate);
    && !(start.Some? && d.Some? && dayOf(d.value) < dayOf(start.value))
    && !(end.Some? && d.Some? && dayOf(d.value) > dayOf(end.value))
  }

  /** The computation in `filterOrders` once the cache is there: `None` when
      both bounds are valid and the start instant is after the end instant
      (the alert), otherwise the cached orders that are in range. */
  function FilteredOrders(cache: seq<Order>, startInput: string, endInput: string,
                          instant: string -> Option<int>, dayOf: int -> int): Option<seq<Order>>
  {
    var start := Bound(startInput, instant);
    var end := Bound(endInput, instant);
    if start.Some? && end.Some? && start.value > end.value then None
    else Some(Filter(cache, (o: Order) => InRange(o, start, end, instant, dayOf)))
  }

  /** The alert is raised exactly for two valid bounds in the wrong order;
      otherwise the result keeps the cache order and holds exactly the orders
      whose day lies between the bound days, both inclusive, plus those
      whose own date does not parse. */
  lemma FilteredOrdersContract(cache: seq<Order>, startInput: string, endInput: string,
                               instant: string -> Option<int>, dayOf: int -> int)
    ensures var start := Bound(startInput, instant);
      var end := Bound(endInput, instant);
      var r := FilteredOrders(cache, startInput, endInput, instant, dayOf);
      && (r.None? <==> start.Some? && end.Some? && start.value > end.value)
      && (r.Some? ==> Subsequence(r.value, cache))
      && (r.Some? ==> forall o :: o in r.value <==>
            o in cache &&
            (instant(o.orderDate).Some? ==>
              && (start.Some? ==> dayOf(start.value) <= dayOf(instant(o.orderDate).value))
              && (end.Some? ==> dayOf(instant(o.orderDate).value) <= dayOf(end.value))))
  {
    var start := Bound(startInput, instant);
    var end := Bound(endInput, instant);
    FilterIsSubsequence(cache, (o: Order) => InRange(o, start, end, instant, dayOf));
  }

  /** A date text that does not parse filters exactly as an empty input. */
  lemma UnparsableBoundIgnored(cache: seq<Order>, startInput: string, endInput: string,
                               instant: string -> Option<int>, dayOf: int -> int)
    requires instant(startInput).None?
    ensures FilteredOrders(cache, startInput, endInput, instant, dayOf)
         == FilteredOrders(cache, "", endInput, instant, dayOf)
  {
  }

  /** With no bounds at all every cached order is shown. */
  lemma NoBoundsKeepsAll(cache: seq<Order>, instant: string -> Option<int>, dayOf: int -> int)
    ensures FilteredOrders(cache, "", "", instant, dayOf) == Some(cache)
  {
    FilterAll(cache, (o: Order) => InRange(o, None, None, instant, dayOf));
  }

  // ---------------------------------------------------------------------------
  // The page state

  /** The outcome of the orders request: the decoded list, or any failure
      (a transport error, a non-ok status, a body that is not JSON). */
  datatype OrdersFetch = OrdersLoaded(orders: seq<Order>) | OrdersFailed

  /** The cache after trying `outcomes` in turn until one succeeds. */
  function FirstLoaded(outcomes: seq<OrdersFetch>): Option<seq<Order>> {
    if outcomes == [] then None
    else if outcomes[0].OrdersLoaded? then Some(outcomes[0].orders)
    else FirstLoaded(outcomes[1..])
  }

  /** How many of `outcomes` are requested before one succeeds (all of them
      when none does). */
  function RequestsUntilLoaded(outcomes: seq<OrdersFetch>): (n: nat)
    ensures n <= |outcomes|
    ensures FirstLoaded(outcomes).Some? ==> 0 < n && outcomes[n - 1] == OrdersLoaded(FirstLoaded(outcomes).value)
    ensures FirstLoaded(outcomes).None? ==> n == |outcomes|
    ensures forall k :: 0 <= k < n - 1 ==> outcomes[k].OrdersFailed?
    ensures FirstLoaded(outcomes).None? ==> forall k :: 0 <= k < n ==> outcomes[k].OrdersFailed?
  {
    if outcomes == [] then 0
    else if outcomes[0].OrdersLoaded? then 1
    else 1 + RequestsUntilLoaded(outcomes[1..])
  }

  class OrdersPanel {
    /** `ordersCache`; `None` stands for `null`. */
    var ordersCache: Option<seq<Order>>
    var view: OrdersView

    constructor ()
      ensures ordersCache == None && view == NotShown
    {
      ordersCache := None;
      view := NotShown;
    }

    /** `fetchOrders()`: a cached list is rendered without a request; otherwise
      `outcome` is the request's result, and only a success fills the cache.
      `requested` tells whether a request was made. */
    method FetchOrders(outcome: OrdersFetch) returns (requested: bool)
      modifies this
      ensures requested <==> old(ordersCache).None?
      ensures !requested ==> ordersCache == old(ordersCache) && view == RenderOrders(ordersCache.value)
      ensures requested && outcome.OrdersLoaded? ==>
        ordersCache == Some(outcome.orders) && view == RenderOrders(outcome.orders)
      ensures requested && outcome.OrdersFailed? ==> ordersCache == None && view == LoadFailed
    {
      if ordersCache.Some? {
        view := RenderOrders(ordersCache.value);
        return false;
      }
      requested := true;
      match outcome
      case OrdersLoaded(orders) =>
        ordersCache := Some(orders);
        view := RenderOrders(orders);
      case OrdersFailed =>
        view := LoadFailed;
    }

    /** `filterOrders()`: without a cache it fetches and runs again, as long
      as `outcomes` last (the source has no bound on the retries); with the
      cache it either raises the alert, leaving the table as it was, or
      renders the orders in range. */
    method FilterOrders(startInput: string, endInput: string, outcomes: seq<OrdersFetch>,
                        instant: string -> Option<int>, dayOf: int -> int)
      returns (requests: nat, alert: bool)
      modifies this
      ensures requests == (if old(ordersCache).Some? then 0 else RequestsUntilLoaded(outcomes))
      ensures ordersCache == (if old(ordersCache).Some? then old(ordersCache) else FirstLoaded(outcomes))
      ensures ordersCache.None? ==> !alert && view == (if requests == 0 then old(view) else LoadFailed)
      ensures ordersCache.Some? ==>
        var r := FilteredOrders(ordersCache.value, startInput, endInput, instant, dayOf);
        && (alert <==> r.None?)
        && (!alert ==> view == RenderOrders(r.value))
        && (alert ==> view == (if requests == 0 then old(view) else RenderOrders(ordersCache.value)))
    {
      requests := 0;
      alert := false;
      while ordersCache.None? && requests < |outcomes|
        invariant requests <= |outcomes|
        invariant old(ordersCache).Some? ==> requests == 0 && ordersCache == old(ordersCache) && view == old(view)
        invariant old(ordersCache).None? && ordersCache.None? ==>
          FirstLoaded(outcomes) == FirstLoaded(outcomes[requests..])
          && (forall k :: 0 <= k < requests ==> outcomes[k].OrdersFailed?)
          && view == (if requests == 0 then old(view) else LoadFailed)
        invariant old(ordersCache).None? && ordersCache.Some? ==>
          0 < requests && requests == RequestsUntilLoaded(outcomes)
          && ordersCache == FirstLoaded(outcomes) && view == RenderOrders(ordersCache.value)
      {
        FirstLoadedStep(outcomes, requests);
        var _ := FetchOrders(outcomes[requests]);
        requests := requests + 1;
      }
      if ordersCache.None? {
        FirstLoadedExhausted(outcomes, requests);
        return;
      }
      var r := FilteredOrders(ordersCache.value, startInput, endInput, instant, dayOf);
      if r.None? {
        alert := true;
      } else {
        view := RenderOrders(r.value);
      }
    }
  }

  /** One failed request moves the search for the first success one step on;
      a success at `k` is the first one. */
  lemma {:induction false} FirstLoadedStep(outcomes: seq<OrdersFetch>, k: nat)
    requires k < |outcomes| && forall j :: 0 <= j < k ==> outcomes[j].OrdersFailed?
    ensures FirstLoaded(outcomes) == FirstLoaded(outcomes[k..])
    ensures outcomes[k].OrdersLoaded? ==>
      RequestsUntilLoaded(outcomes) == k + 1 && FirstLoaded(outcomes) == Some(outcomes[k].orders)
    decreases k
  {
    if k > 0 {
      FirstLoadedStep(outcomes[1..], k - 1);
      assert outcomes[1..][k - 1..] == outcomes[k..];
    }
  }

  /** When every outcome failed there is nothing loaded and all were requested. */
  lemma {:induction false} FirstLoadedExhausted(outcomes: seq<OrdersFetch>, k: nat)
    requires k == |outcomes| && forall j :: 0 <= j < k ==> outcomes[j].OrdersFailed?
    ensures FirstLoaded(outcomes) == None && RequestsUntilLoaded(outcomes) == k
    decreases k
  {
    if k > 0 {
      FirstLoadedExhausted(outcomes[1..], k - 1);
    }
  }
}
