/** The order-line ledger the dashboard aggregates, and the sidebar's date window. */
module Ledger {
  import opened Wrappers

  /** Timestamps are whole seconds on the data's own (naive) clock; a calendar
      day is a run of this many seconds starting at midnight. */
  const SecondsPerDay: int := 86400

  /** One row of the merged e-commerce table: one line of one order.
      The columns a group-by may find empty are optional. */
  datatype Record = Record(
    orderId: string,
    customerId: string,
    productId: Option<string>,
    category: Option<string>,
    orderStatus: string,
    payment: real,
    purchaseTs: int,
    sellerCity: string,
    customerCity: string,
    customerState: string,
    deliveryStatus: Option<string>)

  /** The calendar day of a timestamp: the day whose midnight is the latest at or
      before it, also for timestamps before the epoch. */
  function Day(ts: int): (d: int)
    ensures d * SecondsPerDay <= ts < d * SecondsPerDay + SecondsPerDay
  {
    ts / SecondsPerDay
  }

  lemma DayMonotone(a: int, b: int)
    requires a <= b
    ensures Day(a) <= Day(b)
  {
  }

  /** The sidebar filter keeps a line when its purchase timestamp lies between the
      two chosen dates, each compared in its string form, which reads as midnight. */
  predicate InWindow(startDay: int, endDay: int, ts: int)
  {
    startDay * SecondsPerDay <= ts <= endDay * SecondsPerDay
  }

  /** The lines that pass the sidebar filter, in ledger order; a line that passes
      keeps every one of its copies. */
  function Window(recs: seq<Record>, startDay: int, endDay: int): (w: seq<Record>)
    ensures |w| <= |recs|
    ensures forall r :: r in w <==> r in recs && InWindow(startDay, endDay, r.purchaseTs)
    ensures forall r :: multiset(w)[r] == if InWindow(startDay, endDay, r.purchaseTs) then multiset(recs)[r] else 0
  {
    if recs == [] then []
    else
      assert recs == [recs[0]] + recs[1..];
      var rest := Window(recs[1..], startDay, endDay);
      assert forall r :: r in recs <==> r == recs[0] || r in recs[1..];
      if InWindow(startDay, endDay, recs[0].purchaseTs) then [recs[0]] + rest else rest
  }

  /** A timestamp passes the window exactly when it falls on a day from the start
      date up to the day before the end date, or at midnight of the end date:
      a purchase later in the day on the end date is left out. */
  lemma WindowByDay(startDay: int, endDay: int, ts: int)
    ensures InWindow(startDay, endDay, ts) <==>
            (startDay <= Day(ts) < endDay) || (startDay <= endDay && ts == endDay * SecondsPerDay)
  {
  }

  /** Every line that passes the window was bought on a day between the two dates. */
  lemma WindowDays(startDay: int, endDay: int, ts: int)
    requires InWindow(startDay, endDay, ts)
    ensures startDay <= Day(ts) <= endDay
  {
  }
}
