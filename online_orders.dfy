/** onlineOrders.js: the online-orders tab of the admin page. It draws
    five-star ratings, keeps only ongoing orders, labels delivery, checks the
    period search and filters reviews by date and minimum ratings. */
module OnlineOrders {
  import opened Js

  const FullStar := '★'
  const EmptyStar := '☆'

  // ---------------------------------------------------------------------------
  // renderStars

  /** The star string for a rating; `None` stands for a rating that is not a
      number, which no position reaches. */
  function Stars(rating: Option<real>): (r: string)
    ensures |r| == 5
  {
    seq(5, k => if rating.Some? && (k + 1) as real <= rating.value then FullStar else EmptyStar)
  }

  /** `renderStars(rating)`: the loop over positions 1..5 (the surrounding
      span is markup only). */
  method RenderStars(rating: Option<real>) returns (s: string)
    ensures s == Stars(rating)
    ensures |s| == 5
  {
    s := "";
    var i := 1;
    while i <= 5
      invariant 1 <= i <= 6
      invariant |s| == i - 1
      invariant forall k :: 0 <= k < i - 1 ==> s[k] == Stars(rating)[k]
    {
      var star := if rating.Some? && i as real <= rating.value then FullStar else EmptyStar;
      s := s + [star];
      i := i + 1;
    }
  }

  /** Rating r clamped to 0..5. */
  function Clamp5(r: int): (k: nat)
    ensures k <= 5
  {
    if r < 0 then 0 else if r > 5 then 5 else r
  }

  /** A whole-number rating shows that many full stars first, then empty
      ones: out-of-range ratings are clamped, a missing one shows five empty
      stars. */
  lemma StarsOfWholeRating(r: int)
    ensures Stars(Some(r as real)) == Repeat(FullStar, Clamp5(r)) + Repeat(EmptyStar, 5 - Clamp5(r))
    ensures Stars(None) == Repeat(EmptyStar, 5)
  {
    var k := Clamp5(r);
    var a := Stars(Some(r as real));
    var b := Repeat(FullStar, k) + Repeat(EmptyStar, 5 - k);
    assert forall i :: 0 <= i < 5 ==> a[i] == b[i];
    assert Stars(None) == Repeat(EmptyStar, 5);
  }

  // ---------------------------------------------------------------------------
  // Ongoing orders and delivery labels

  const OngoingStatuses: set<string> := {"PLACED", "SHIPPED", "PREPARING"}

  /** The filter test of `loadOngoingOrders`: `None` when it throws (reading
      `status` of null, or `toUpperCase` of a status that is not a string). */
  function IsOngoing(o: Val): Option<bool> {
    if IsNullish(o) then None
    else
      var status := Get(o, "status");
      if IsNullish(status) then Some(false)
      else if status.Str? then Some(ToUpper(status.s) in OngoingStatuses)
      else None
  }

  function AllTestable(orders: seq<Val>): bool {
    forall i :: 0 <= i < |orders| ==> IsOngoing(orders[i]).Some?
  }

  predicate Ongoing(o: Val) {
    IsOngoing(o) == Some(true)
  }

  /** `orders.filter(...)`; `None` when a test throws (the table then shows the
      error row). */
  function OngoingOrders(orders: seq<Val>): (r: Option<seq<Val>>)
    ensures r.Some? <==> AllTestable(orders)
  {
    if AllTestable(orders) then Some(Filter(orders, Ongoing)) else None
  }

  /** The ongoing list keeps, in order, exactly the orders whose upper-cased
      status is placed, shipped or preparing; an order without status is
      left out. */
  lemma OngoingOrdersContract(orders: seq<Val>)
    requires AllTestable(orders)
    ensures var r := OngoingOrders(orders).value;
      && Subsequence(r, orders)
      && (forall o :: o in r <==> o in orders && Get(o, "status").Str? && ToUpper(Get(o, "status").s) in OngoingStatuses)
  {
    FilterIsSubsequence(orders, Ongoing);
  }

  /** What the delivered column shows. */
  datatype DeliveryLabel = DeliveredOn(at: Val) | Note(text: string)

  /** `formatDeliveredAt(order)`; the date formatting itself is not modelled. */
  function FormatDeliveredAt(order: Val): DeliveryLabel {
    var deliveredAt := Get(order, "deliveredAt");
    if Truthy(deliveredAt) then DeliveredOn(deliveredAt)
    else
      var status := Get(order, "status");
      if status == Str("CANCELED") then Note("Not delivered (Canceled)")
      else if status == Str("SHIPPED") || status == Str("PLACED") then Note("Pending delivery")
      else Note("—")
  }

  /** The timestamp wins; without one, only the exact upper-case statuses get
      a message: an ongoing order that is preparing, or whose status is
      spelled in lower case, shows the dash although the ongoing list keeps
      it. */
  lemma DeliveryLabelCases(order: Val)
    requires !Truthy(Get(order, "deliveredAt"))
    ensures FormatDeliveredAt(order) == Note("Pending delivery") <==> Get(order, "status") in {Str("SHIPPED"), Str("PLACED")}
    ensures FormatDeliveredAt(order) == Note("Not delivered (Canceled)") <==> Get(order, "status") == Str("CANCELED")
    ensures Get(order, "status") == Str("PREPARING") ==> Ongoing(order) && FormatDeliveredAt(order) == Note("—")
    ensures Get(order, "status") == Str("shipped") ==> Ongoing(order) && FormatDeliveredAt(order) == Note("—")
  {
    assert ToUpper("PREPARING") == "PREPARING";
    assert ToUpper("shipped") == "SHIPPED";
  }

  // ---------------------------------------------------------------------------
  // Period search

  /** `new Date(a) > new Date(b)`: false when either is not a valid date. */
  predicate After(a: Option<int>, b: Option<int>) {
    a.Some? && b.Some? && a.value > b.value
  }

  /** `filterOnlineOrdersByPeriod()`: the `start` and `end` query bounds, or
      `None` when a date is missing or the start is after the end (the table
      then asks for a valid range). `instant` reads a date input as a time. */
  function PeriodBounds(startDate: string, endDate: string, instant: string -> Option<int>): Option<(string, string)> {
    if startDate == "" || endDate == "" || After(instant(startDate), instant(endDate)) then None
    else Some((startDate + "T00:00:00", endDate + "T23:59:59"))
  }

  /** A request is made exactly for two filled dates in order, and its bounds
      span the first day from midnight to the last second of the last day. */
  lemma PeriodBoundsContract(startDate: string, endDate: string, instant: string -> Option<int>)
    ensures PeriodBounds(startDate, endDate, instant).Some? <==>
      startDate != "" && endDate != "" && !After(instant(startDate), instant(endDate))
    ensures PeriodBounds(startDate, endDate, instant).Some? ==>
      var (s, e) := PeriodBounds(startDate, endDate, instant).value;
      && s[..|startDate|] == startDate && s[|startDate|..] == "T00:00:00"
      && e[..|endDate|] == endDate && e[|endDate|..] == "T23:59:59"
  {
  }

  // ---------------------------------------------------------------------------
  // Review filters

  datatype Review = Review(reviewDate: string, quality: int, delivery: int)

  /** `applyReviewFilters()` over `reviews`: `None` when both dates are set
      and the start is after the end (an alert); otherwise the four filters in
      turn. `instant` is `new Date(...)` of a text; `endOfDay` is
      `setHours(23, 59, 59, 999)`, which works in the browser's local time
      zone, so the end bound is the last millisecond of that local day. */
  function ReviewFilters(reviews: seq<Review>, startInput: string, endInput: string,
                         minQuality: string, minDelivery: string, instant: string -> Option<int>, endOfDay: int -> int): Option<seq<Review>>
  {
    if startInput != "" && endInput != "" && After(instant(startInput), instant(endInput)) then None
    else
      var byStart := if startInput != "" then Filter(reviews, (r: Review) => AtOrAfter(instant(r.reviewDate), instant(startInput))) else reviews;
      var byEnd := if endInput != "" then Filter(byStart, (r: Review) => AtOrBefore(instant(r.reviewDate), EndBound(instant(endInput), endOfDay))) else byStart;
      var minQ := ParseInt(minQuality);
      var byQ := if minQ.Some? then Filter(byEnd, (r: Review) => r.quality >= minQ.value) else byEnd;
      var minD := ParseInt(minDelivery);
      var byD := if minD.Some? then Filter(byQ, (r: Review) => r.delivery >= minD.value) else byQ;
      Some(byD)
  }

  predicate AtOrAfter(a: Option<int>, b: Option<int>) {
    a.Some? && b.Some? && a.value >= b.value
  }

  predicate AtOrBefore(a: Option<int>, b: Option<int>) {
    a.Some? && b.Some? && a.value <= b.value
  }

  /** `end.setHours(23, 59, 59, 999)` on `new Date(endInput)`; an invalid
      date stays invalid. */
  function EndBound(end: Option<int>, endOfDay: int -> int): Option<int> {
    if end.Some? then Some(endOfDay(end.value)) else None
  }

  /** What passes every filter that is switched on. */
  predicate PassesFilters(r: Review, startInput: string, endInput: string,
                          minQuality: string, minDelivery: string, instant: string -> Option<int>, endOfDay: int -> int)
  {
    && (startInput != "" ==> AtOrAfter(instant(r.reviewDate), instant(startInput)))
    && (endInput != "" ==> AtOrBefore(instant(r.reviewDate), EndBound(instant(endInput), endOfDay)))
    && (ParseInt(minQuality).Some? ==> r.quality >= ParseInt(minQuality).value)
    && (ParseInt(minDelivery).Some? ==> r.delivery >= ParseInt(minDelivery).value)
  }

  /** Each filter only removes reviews: the result is a subsequence of the
      input holding exactly the reviews that pass every active filter; an
      unparsable minimum is ignored. */
  lemma ReviewFiltersContract(reviews: seq<Review>, startInput: string, endInput: string,
                              minQuality: string, minDelivery: string, instant: string -> Option<int>, endOfDay: int -> int)
    ensures var r := ReviewFilters(reviews, startInput, endInput, minQuality, minDelivery, instant, endOfDay);
      && (r.None? <==> startInput != "" && endInput != "" && After(instant(startInput), instant(endInput)))
      && (r.Some? ==> Subsequence(r.value, reviews))
      && (r.Some? ==> forall x :: x in r.value <==> x in reviews && PassesFilters(x, startInput, endInput, minQuality, minDelivery, instant, endOfDay))
  {
    var r := ReviewFilters(reviews, startInput, endInput, minQuality, minDelivery, instant, endOfDay);
    if r.Some? {
      var p1 := (x: Review) => AtOrAfter(instant(x.reviewDate), instant(startInput));
      var byStart := if startInput != "" then Filter(reviews, p1) else reviews;
      FilterIfOn(reviews, startInput != "", p1);
      var p2 := (x: Review) => AtOrBefore(instant(x.reviewDate), EndBound(instant(endInput), endOfDay));
      var byEnd := if endInput != "" then Filter(byStart, p2) else byStart;
      FilterIfOn(byStart, endInput != "", p2);
      var minQ := ParseInt(minQuality);
      var byQ := byEnd;
      if minQ.Some? {
        var p3 := (x: Review) => x.quality >= minQ.value;
        byQ := Filter(byEnd, p3);
        FilterIfOn(byEnd, true, p3);
      } else {
        SubsequenceRefl(byEnd);
      }
      var minD := ParseInt(minDelivery);
      var byD := byQ;
      if minD.Some? {
        var p4 := (x: Review) => x.delivery >= minD.value;
        byD := Filter(byQ, p4);
        FilterIfOn(byQ, true, p4);
      } else {
        SubsequenceRefl(byQ);
      }
      assert r.value == byD;
      forall x
        ensures x in byD <==> x in reviews && PassesFilters(x, startInput, endInput, minQuality, minDelivery, instant, endOfDay)
      {
        assert x in byStart <==> x in reviews && (startInput != "" ==> AtOrAfter(instant(x.reviewDate), instant(startInput)));
        assert x in byEnd <==> x in byStart && (endInput != "" ==> AtOrBefore(instant(x.reviewDate), EndBound(instant(endInput), endOfDay)));
        assert x in byQ <==> x in byEnd && (minQ.Some? ==> x.quality >= minQ.value);
        assert x in byD <==> x in byQ && (minD.Some? ==> x.delivery >= minD.value);
      }
      SubsequenceTransitive(byD, byQ, byEnd);
      SubsequenceTransitive(byD, byEnd, byStart);
      SubsequenceTransitive(byD, byStart, reviews);
    }
  }

  /** A filter that is applied only when it is switched on keeps a
      subsequence, made of the elements that pass when it is on. */
  lemma FilterIfOn<T>(s: seq<T>, on: bool, p: T -> bool)
    ensures var r := if on then Filter(s, p) else s;
      && Subsequence(r, s)
      && forall x :: x in r <==> x in s && (on ==> p(x))
  {
    if on {
      FilterIsSubsequence(s, p);
    } else {
      SubsequenceRefl(s);
    }
  }
}
