/** Properties the dashboard's tables have as a whole: totals that are preserved,
    what an empty day or an empty ledger yields, and how the date window bounds
    the daily series and the recency column. */
module DashboardLaws {
  import opened Wrappers
  import opened Ordering
  import opened Ledger
  import opened Grouping
  import opened Tables
  import opened Dashboard

  function TotalRevenue(t: seq<DailyRow>): real
  {
    if t == [] then 0.0 else t[0].revenue + TotalRevenue(t[1..])
  }

  function TotalMonetary(t: seq<RfmRow>): real
  {
    if t == [] then 0.0 else t[0].monetary + TotalMonetary(t[1..])
  }

  function TotalOrders(t: seq<DailyRow>): nat
  {
    if t == [] then 0 else t[0].orderCount + TotalOrders(t[1..])
  }

  // ------------------------------------------------------------------ daily series

  lemma {:induction false} RevenueOver(recs: seq<Record>, t: seq<DailyRow>, ds: seq<int>)
    requires |t| == |ds| && forall i :: 0 <= i < |t| ==> t[i].revenue == Payment(recs, DayKey, ds[i])
    ensures TotalRevenue(t) == PaymentOver(recs, DayKey, ds)
  {
    if t != [] {
      RevenueOver(recs, t[1..], ds[1..]);
    }
  }

  /** The daily revenue column adds up to the ledger's total payment: revenue is
      summed per line, not once per order, and every line falls on a listed day. */
  lemma DailyRevenueTotal(recs: seq<Record>)
    ensures TotalRevenue(DailyOrders(recs)) == TotalPayment(recs)
  {
    if recs != [] {
      DailyRevenueByDay(recs);
      DayRangeCovers(recs);
      PaymentPartition(recs, DayKey, DayRange(FirstDay(recs), LastDay(recs) - FirstDay(recs) + 1));
    }
  }

  lemma DailyRevenueByDay(recs: seq<Record>)
    requires recs != []
    ensures TotalRevenue(DailyOrders(recs)) == PaymentOver(recs, DayKey, DayRange(FirstDay(recs), LastDay(recs) - FirstDay(recs) + 1))
  {
    RevenueOver(recs, DailyOrders(recs), DayRange(FirstDay(recs), LastDay(recs) - FirstDay(recs) + 1));
  }

  lemma {:induction false} OrdersOver(recs: seq<Record>, t: seq<DailyRow>, ds: seq<int>)
    requires |t| == |ds| && forall i :: 0 <= i < |t| ==> t[i].orderCount == |DistinctIds(recs, DayKey, ds[i], OrderIdOf)|
    ensures TotalOrders(t) <= CountOver(recs, Always, DayKey, ds)
  {
    if t != [] {
      OrdersOver(recs, t[1..], ds[1..]);
    }
  }

  /** The "Total orders" metric, the sum of the daily order column, never exceeds
      the number of lines: an order of several lines counts once on its day. */
  lemma DailyOrdersTotal(recs: seq<Record>)
    ensures TotalOrders(DailyOrders(recs)) <= |recs|
  {
    if recs != [] {
      DailyOrdersByDay(recs);
      DayRangeCovers(recs);
      CountPartition(recs, Always, DayKey, DayRange(FirstDay(recs), LastDay(recs) - FirstDay(recs) + 1));
    }
  }

  lemma DailyOrdersByDay(recs: seq<Record>)
    requires recs != []
    ensures TotalOrders(DailyOrders(recs)) <= CountOver(recs, Always, DayKey, DayRange(FirstDay(recs), LastDay(recs) - FirstDay(recs) + 1))
  {
    OrdersOver(recs, DailyOrders(recs), DayRange(FirstDay(recs), LastDay(recs) - FirstDay(recs) + 1));
  }

  /** The days from the first to the last purchase day, each once, cover every line. */
  lemma DayRangeCovers(recs: seq<Record>)
    requires recs != []
    ensures FirstDay(recs) <= LastDay(recs)
    ensures NoDup(DayRange(FirstDay(recs), LastDay(recs) - FirstDay(recs) + 1))
    ensures forall r :: r in recs ==>
              DayKey(r).Some? && DayKey(r).value in DayRange(FirstDay(recs), LastDay(recs) - FirstDay(recs) + 1)
  {
    var first := FirstDay(recs);
    var ds := DayRange(first, LastDay(recs) - first + 1);
    forall r | r in recs ensures DayKey(r).Some? && DayKey(r).value in ds {
      assert ds[Day(r.purchaseTs) - first] == Day(r.purchaseTs);
    }
  }

  /** A day of the series counts no orders exactly when nobody bought anything that
      day, and then its revenue is zero; otherwise it counts at most that day's lines. */
  lemma DailyQuietDays(recs: seq<Record>, i: int)
    requires 0 <= i < |DailyOrders(recs)|
    ensures var row := DailyOrders(recs)[i];
            && (row.orderCount == 0 <==> forall r :: r in recs ==> Day(r.purchaseTs) != row.day)
            && (row.orderCount == 0 ==> row.revenue == 0.0)
            && row.orderCount <= Count(recs, Always, DayKey, row.day)
  {
    var row := DailyOrders(recs)[i];
    if row.orderCount != 0 {
      var x :| x in DistinctIds(recs, DayKey, row.day, OrderIdOf);
    }
  }

  /** Every line's purchase day has a row in the daily series, and the first and
      last rows are days on which something was bought. */
  lemma DailyCoversEveryLine(recs: seq<Record>, r: Record)
    requires r in recs
    ensures var t := DailyOrders(recs);
            && (exists i :: 0 <= i < |t| && t[i].day == Day(r.purchaseTs))
            && t[0].orderCount > 0 && t[|t| - 1].orderCount > 0
  {
    var t := DailyOrders(recs);
    var i := Day(r.purchaseTs) - FirstDay(recs);
    assert t[i].day == Day(r.purchaseTs);
    DailyQuietDays(recs, 0);
    DailyQuietDays(recs, |t| - 1);
  }

  // ------------------------------------------------------------------------- RFM

  lemma {:induction false} RfmRowsMonetary(recs: seq<Record>, cs: seq<string>)
    requires forall c :: c in cs ==> c in GroupKeys(recs, Always, CustomerKey)
    ensures TotalMonetary(RfmRows(recs, cs)) == PaymentOver(recs, CustomerKey, cs)
  {
    if cs != [] {
      RfmRowsMonetary(recs, cs[1..]);
      assert RfmRows(recs, cs)[1..] == RfmRows(recs, cs[1..]);
    }
  }

  lemma {:induction false} TotalMonetaryIgnoresIds(t: seq<RfmRow>, u: seq<RfmRow>)
    requires |t| == |u| && forall i :: 0 <= i < |t| ==> t[i].monetary == u[i].monetary
    ensures TotalMonetary(t) == TotalMonetary(u)
  {
    if t != [] {
      TotalMonetaryIgnoresIds(t[1..], u[1..]);
    }
  }

  /** The monetary column adds up to the ledger's total payment: every line belongs
      to exactly one customer's row. */
  lemma RfmMonetaryTotal(recs: seq<Record>)
    ensures TotalMonetary(RfmTable(recs)) == TotalPayment(recs)
  {
    var cs := SortedKeys(recs, Always, CustomerKey);
    AscendingNoDup(cs);
    forall r | r in recs ensures CustomerKey(r).Some? && CustomerKey(r).value in cs {
      assert r.customerId in GroupKeys(recs, Always, CustomerKey);
    }
    RfmRowsMonetary(recs, cs);
    PaymentPartition(recs, CustomerKey, cs);
    TotalMonetaryIgnoresIds(RfmTable(recs), RfmGroups(recs));
  }

  /** In a non-empty ledger some customer has recency zero: one whose last purchase
      falls on the ledger's latest day. */
  lemma RfmRecencyZero(recs: seq<Record>)
    requires recs != []
    ensures exists i :: 0 <= i < |RfmTable(recs)| && RfmTable(recs)[i].recency == 0
  {
    var c := LatestCustomer(recs);
    var i := RfmIndexOf(recs, c);
    assert RfmGroups(recs)[i].recency == 0;
    assert RfmTable(recs)[i].recency == RfmGroups(recs)[i].recency;
  }

  /** A customer who bought on the ledger's latest day. */
  lemma LatestCustomer(recs: seq<Record>) returns (c: string)
    requires recs != []
    ensures c in GroupKeys(recs, Always, CustomerKey)
    ensures Day(LatestPurchase(recs, c)) == LastDay(recs)
  {
    var d := LastDay(recs);
    var y :| y in recs && Day(y.purchaseTs) == d;
    c := y.customerId;
    assert y.customerId in GroupKeys(recs, Always, CustomerKey);
    var z :| z in recs && z.customerId == c && z.purchaseTs == LatestPurchase(recs, c);
    DayMonotone(y.purchaseTs, LatestPurchase(recs, c));
  }

  lemma RfmIndexOf(recs: seq<Record>, c: string) returns (i: int)
    requires c in GroupKeys(recs, Always, CustomerKey)
    ensures 0 <= i < |RfmGroups(recs)| && RfmGroups(recs)[i].customerId == c
  {
    var g := RfmGroups(recs);
    i :| 0 <= i < |g| && g[i].customerId == c;
  }

  lemma {:induction false} NoDupCard(cs: seq<string>)
    requires NoDup(cs)
    ensures |set c | c in cs| == |cs|
  {
    if cs != [] {
      NoDupCard(cs[1..]);
      assert (set c | c in cs) == {cs[0]} + (set c | c in cs[1..]);
      assert cs[0] !in cs[1..];
    }
  }

  /** The RFM table has exactly one row per distinct full customer id: cutting the
      ids to ten characters after grouping never merges two customers. */
  lemma RfmOneRowPerCustomer(recs: seq<Record>)
    ensures |RfmTable(recs)| == |GroupKeys(recs, Always, CustomerKey)|
  {
    var cs := SortedKeys(recs, Always, CustomerKey);
    AscendingNoDup(cs);
    NoDupCard(cs);
    assert (set c | c in cs) == GroupKeys(recs, Always, CustomerKey);
  }

  // ------------------------------------------------------------------ empty ledger

  /** An empty ledger gives an empty table from every transform. */
  lemma EmptyLedger()
    ensures DailyOrders([]) == []
    ensures ProductVolume([]) == []
    ensures CustomersByCity([]) == []
    ensures CustomersByState([]) == []
    ensures CancelledByCategory([]) == []
    ensures LateBySellerCity([]) == []
    ensures RfmTable([]) == []
  {
  }

  // ------------------------------------------------------------------ date window

  /** The daily series of a windowed ledger runs between the two chosen dates. */
  lemma WindowedDailySeries(recs: seq<Record>, startDay: int, endDay: int)
    requires Window(recs, startDay, endDay) != []
    ensures var t := DailyOrders(Window(recs, startDay, endDay));
            && startDay <= t[0].day && t[|t| - 1].day <= endDay
            && |t| <= endDay - startDay + 1
  {
    var w := Window(recs, startDay, endDay);
    var a :| a in w && Day(a.purchaseTs) == FirstDay(w);
    var b :| b in w && Day(b.purchaseTs) == LastDay(w);
    WindowDays(startDay, endDay, a.purchaseTs);
    WindowDays(startDay, endDay, b.purchaseTs);
  }

  /** Recency is measured inside the window: on a windowed ledger it never exceeds
      the number of days between the two chosen dates. */
  lemma WindowedRecency(recs: seq<Record>, startDay: int, endDay: int)
    ensures var t := RfmTable(Window(recs, startDay, endDay));
            forall i :: 0 <= i < |t| ==> 0 <= t[i].recency <= endDay - startDay
  {
    var w := Window(recs, startDay, endDay);
    var t := RfmTable(w);
    forall i | 0 <= i < |t| ensures 0 <= t[i].recency <= endDay - startDay {
      WindowedRecencyAt(w, recs, startDay, endDay, i);
    }
  }

  lemma WindowedRecencyAt(w: seq<Record>, recs: seq<Record>, startDay: int, endDay: int, i: int)
    requires w == Window(recs, startDay, endDay) && 0 <= i < |RfmGroups(w)|
    ensures 0 <= RfmTable(w)[i].recency <= endDay - startDay
  {
    var c := RfmGroups(w)[i].customerId;
    var a :| a in w && a.customerId == c && a.purchaseTs == LatestPurchase(w, c);
    var d := LastDay(w);
    var b :| b in w && Day(b.purchaseTs) == d;
    WindowDays(startDay, endDay, a.purchaseTs);
    WindowDays(startDay, endDay, b.purchaseTs);
    assert RfmTable(w)[i].recency == RfmGroups(w)[i].recency;
  }
}
