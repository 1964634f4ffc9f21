/** The seven summary tables the dashboard computes from the (already filtered)
    order-line ledger. Each is a pure function of the ledger. */
module Dashboard {
  import opened Wrappers
  import opened Ordering
  import opened Ledger
  import opened Grouping
  import opened Tables

  // The columns the transforms group by, filter on or count.

  function DayKey(r: Record): Option<int> { Some(Day(r.purchaseTs)) }
  function CategoryKey(r: Record): Option<string> { r.category }
  function CustomerCityKey(r: Record): Option<string> { Some(r.customerCity) }
  function CustomerStateKey(r: Record): Option<string> { Some(r.customerState) }
  function SellerCityKey(r: Record): Option<string> { Some(r.sellerCity) }
  function CustomerKey(r: Record): Option<string> { Some(r.customerId) }
  function OrderIdOf(r: Record): string { r.orderId }
  function CustomerIdOf(r: Record): string { r.customerId }
  predicate HasProduct(r: Record) { r.productId.Some? }
  predicate IsCanceled(r: Record) { r.orderStatus == "canceled" }
  predicate IsLate(r: Record) { r.deliveryStatus == Some("late") }

  // ---------------------------------------------------------------- daily orders

  datatype DailyRow = DailyRow(day: int, orderCount: nat, revenue: real)

  /** The earliest purchase day in a non-empty ledger. */
  function FirstDay(recs: seq<Record>): (d: int)
    requires recs != []
    ensures exists r :: r in recs && Day(r.purchaseTs) == d
    ensures forall r :: r in recs ==> d <= Day(r.purchaseTs)
  {
    if |recs| == 1 then Day(recs[0].purchaseTs)
    else
      var m := FirstDay(recs[1..]);
      assert forall r :: r in recs <==> r == recs[0] || r in recs[1..];
      if Day(recs[0].purchaseTs) <= m then Day(recs[0].purchaseTs) else m
  }

  /** The latest purchase day in a non-empty ledger. */
  function LastDay(recs: seq<Record>): (d: int)
    requires recs != []
    ensures exists r :: r in recs && Day(r.purchaseTs) == d
    ensures forall r :: r in recs ==> Day(r.purchaseTs) <= d
  {
    if |recs| == 1 then Day(recs[0].purchaseTs)
    else
      var m := LastDay(recs[1..]);
      assert forall r :: r in recs <==> r == recs[0] || r in recs[1..];
      if Day(recs[0].purchaseTs) >= m then Day(recs[0].purchaseTs) else m
  }

  /** n consecutive days starting at first. */
  function DayRange(first: int, n: nat): (ds: seq<int>)
    ensures |ds| == n
    ensures forall i :: 0 <= i < n ==> ds[i] == first + i
    decreases n
  {
    if n == 0 then [] else [first] + DayRange(first + 1, n - 1)
  }

  /** One row of the daily series: the distinct orders and the payment total of one day. */
  function DayRow(recs: seq<Record>, d: int): DailyRow
  {
    DailyRow(d, |DistinctIds(recs, DayKey, d, OrderIdOf)|, Payment(recs, DayKey, d))
  }

  function DailyRows(recs: seq<Record>, ds: seq<int>): (t: seq<DailyRow>)
    ensures |t| == |ds|
    ensures forall i :: 0 <= i < |ds| ==> t[i] == DayRow(recs, ds[i])
  {
    if ds == [] then [] else [DayRow(recs, ds[0])] + DailyRows(recs, ds[1..])
  }

  /** create_daily_order_df: a daily resample of the ledger. The series is dense:
      one row per calendar day from the first to the last purchase day, ascending,
      with a day without purchases counting zero orders and zero revenue. */
  function DailyOrders(recs: seq<Record>): (t: seq<DailyRow>)
    ensures recs == [] ==> t == []
    ensures recs != [] ==> |t| == LastDay(recs) - FirstDay(recs) + 1
    ensures recs != [] ==> forall i :: 0 <= i < |t| ==> t[i].day == FirstDay(recs) + i
    ensures forall i :: 0 <= i < |t| ==>
              && t[i].orderCount == |DistinctIds(recs, DayKey, t[i].day, OrderIdOf)|
              && t[i].revenue == Payment(recs, DayKey, t[i].day)
  {
    if recs == [] then []
    else DailyRows(recs, DayRange(FirstDay(recs), LastDay(recs) - FirstDay(recs) + 1))
  }

  // ---------------------------------------------------------- keyed count tables

  /** One row per listed key, holding the size of that group. */
  function KeyedCounts(recs: seq<Record>, keep: Record -> bool, key: Record -> Option<string>, ks: seq<string>): (t: seq<CountRow>)
    ensures |t| == |ks|
    ensures forall i :: 0 <= i < |ks| ==> t[i] == CountRow(ks[i], Count(recs, keep, key, ks[i]))
  {
    if ks == [] then [] else [CountRow(ks[0], Count(recs, keep, key, ks[0]))] + KeyedCounts(recs, keep, key, ks[1..])
  }

  /** One row per listed key, holding the number of distinct customers in that group. */
  function KeyedCustomers(recs: seq<Record>, key: Record -> Option<string>, ks: seq<string>): (t: seq<CountRow>)
    ensures |t| == |ks|
    ensures forall i :: 0 <= i < |ks| ==> t[i] == CountRow(ks[i], |DistinctIds(recs, key, ks[i], CustomerIdOf)|)
  {
    if ks == [] then [] else [CountRow(ks[0], |DistinctIds(recs, key, ks[0], CustomerIdOf)|)] + KeyedCustomers(recs, key, ks[1..])
  }

  /** Rows built from an ascending, duplicate-free list of exactly the keys have one row per key. */
  lemma KeyedRowsShape(t: seq<CountRow>, ks: seq<string>, keys: set<string>)
    requires Ascending(ks) && |t| == |ks| && forall i :: 0 <= i < |ks| ==> t[i].key == ks[i]
    requires forall k :: k in ks <==> k in keys
    ensures KeyAscending(t) && OneRowPerKey(t, keys)
  {
    AscendingNoDup(ks);
    forall k | k in keys ensures exists i :: 0 <= i < |t| && t[i].key == k {
      var i :| 0 <= i < |ks| && ks[i] == k;
      assert t[i].key == k;
    }
  }

  // ------------------------------------------------------- product category volume

  /** The per-category group-by before sorting: categories ascending, each with the
      number of its lines that name a product (a null product_id is not counted). */
  function CategoryGroups(recs: seq<Record>): (g: seq<CountRow>)
    ensures KeyAscending(g)
    ensures OneRowPerKey(g, GroupKeys(recs, Always, CategoryKey))
    ensures forall i :: 0 <= i < |g| ==> g[i].count == Count(recs, HasProduct, CategoryKey, g[i].key)
  {
    var ks := SortedKeys(recs, Always, CategoryKey);
    var g := KeyedCounts(recs, HasProduct, CategoryKey, ks);
    KeyedRowsShape(g, ks, GroupKeys(recs, Always, CategoryKey));
    g
  }

  /** create_sum_order_item_df: one row per non-null category, with the number of
      its lines that name a product, sorted by that number, largest first. */
  function ProductVolume(recs: seq<Record>): (t: seq<CountRow>)
    ensures NonIncreasing(t)
    ensures multiset(t) == multiset(CategoryGroups(recs))
    ensures OneRowPerKey(t, GroupKeys(recs, Always, CategoryKey))
    ensures forall i :: 0 <= i < |t| ==> t[i].count == Count(recs, HasProduct, CategoryKey, t[i].key)
  {
    var g := CategoryGroups(recs);
    SortedRows(g, GroupKeys(recs, Always, CategoryKey), k => Count(recs, HasProduct, CategoryKey, k));
    SortByCount(g)
  }

  // ---------------------------------------------------------- customers by place

  /** The per-city group-by before sorting: cities ascending, each with its number
      of distinct customers. */
  function CityGroups(recs: seq<Record>): (g: seq<CountRow>)
    ensures KeyAscending(g)
    ensures OneRowPerKey(g, GroupKeys(recs, Always, CustomerCityKey))
    ensures forall i :: 0 <= i < |g| ==> g[i].count == |DistinctIds(recs, CustomerCityKey, g[i].key, CustomerIdOf)|
  {
    var ks := SortedKeys(recs, Always, CustomerCityKey);
    var g := KeyedCustomers(recs, CustomerCityKey, ks);
    KeyedRowsShape(g, ks, GroupKeys(recs, Always, CustomerCityKey));
    g
  }

  /** create_customer_city_df: one row per customer city with its number of distinct
      customers, at least one and at most the city's number of lines, sorted by
      that number, largest first. */
  function CustomersByCity(recs: seq<Record>): (t: seq<CountRow>)
    ensures NonIncreasing(t)
    ensures multiset(t) == multiset(CityGroups(recs))
    ensures OneRowPerKey(t, GroupKeys(recs, Always, CustomerCityKey))
    ensures forall i :: 0 <= i < |t| ==>
              && t[i].count == |DistinctIds(recs, CustomerCityKey, t[i].key, CustomerIdOf)|
              && 1 <= t[i].count <= Count(recs, Always, CustomerCityKey, t[i].key)
  {
    var g := CityGroups(recs);
    SortedRows(g, GroupKeys(recs, Always, CustomerCityKey), k => |DistinctIds(recs, CustomerCityKey, k, CustomerIdOf)|);
    SortByCount(g)
  }

  /** create_customer_state_df: one row per customer state with its number of
      distinct customers, at least one and at most the state's number of lines;
      not re-sorted, so the rows keep the group-by's ascending state order. */
  function CustomersByState(recs: seq<Record>): (t: seq<CountRow>)
    ensures KeyAscending(t)
    ensures OneRowPerKey(t, GroupKeys(recs, Always, CustomerStateKey))
    ensures forall i :: 0 <= i < |t| ==>
              && t[i].count == |DistinctIds(recs, CustomerStateKey, t[i].key, CustomerIdOf)|
              && 1 <= t[i].count <= Count(recs, Always, CustomerStateKey, t[i].key)
  {
    var ks := SortedKeys(recs, Always, CustomerStateKey);
    var t := KeyedCustomers(recs, CustomerStateKey, ks);
    KeyedRowsShape(t, ks, GroupKeys(recs, Always, CustomerStateKey));
    t
  }

  // ------------------------------------------------------- cancelled and late lines

  /** The group-by over cancelled lines before sorting: categories ascending. */
  function CancelGroups(recs: seq<Record>): (g: seq<CountRow>)
    ensures KeyAscending(g)
    ensures OneRowPerKey(g, GroupKeys(recs, IsCanceled, CategoryKey))
    ensures forall i :: 0 <= i < |g| ==> g[i].count == Count(recs, IsCanceled, CategoryKey, g[i].key)
    ensures SumCounts(g) == CountKept(recs, IsCanceled, CategoryKey)
  {
    var ks := SortedKeys(recs, IsCanceled, CategoryKey);
    var g := KeyedCounts(recs, IsCanceled, CategoryKey, ks);
    KeyedRowsShape(g, ks, GroupKeys(recs, IsCanceled, CategoryKey));
    KeyedCountsTotal(recs, IsCanceled, CategoryKey, ks);
    g
  }

  /** create_cancel_order_df: the lines with order status "canceled", grouped by
      non-null category; each count is at least one, the counts add up to the
      number of cancelled lines that have a category, largest first. */
  function CancelledByCategory(recs: seq<Record>): (t: seq<CountRow>)
    ensures NonIncreasing(t)
    ensures multiset(t) == multiset(CancelGroups(recs))
    ensures OneRowPerKey(t, GroupKeys(recs, IsCanceled, CategoryKey))
    ensures forall i :: 0 <= i < |t| ==> t[i].count == Count(recs, IsCanceled, CategoryKey, t[i].key) && t[i].count >= 1
    ensures SumCounts(t) == CountKept(recs, IsCanceled, CategoryKey)
  {
    var g := CancelGroups(recs);
    SortedRows(g, GroupKeys(recs, IsCanceled, CategoryKey), k => Count(recs, IsCanceled, CategoryKey, k));
    SortByCount(g)
  }

  /** The group-by over late lines before sorting: seller cities ascending. */
  function LateGroups(recs: seq<Record>): (g: seq<CountRow>)
    ensures KeyAscending(g)
    ensures OneRowPerKey(g, GroupKeys(recs, IsLate, SellerCityKey))
    ensures forall i :: 0 <= i < |g| ==> g[i].count == Count(recs, IsLate, SellerCityKey, g[i].key)
    ensures SumCounts(g) == CountKept(recs, IsLate, SellerCityKey)
  {
    var ks := SortedKeys(recs, IsLate, SellerCityKey);
    var g := KeyedCounts(recs, IsLate, SellerCityKey, ks);
    KeyedRowsShape(g, ks, GroupKeys(recs, IsLate, SellerCityKey));
    KeyedCountsTotal(recs, IsLate, SellerCityKey, ks);
    g
  }

  /** create_late_order_item_df: the lines whose delivery status is "late", grouped
      by seller city; each count is at least one, the counts add up to the number of
      late lines, largest first. */
  function LateBySellerCity(recs: seq<Record>): (t: seq<CountRow>)
    ensures NonIncreasing(t)
    ensures multiset(t) == multiset(LateGroups(recs))
    ensures OneRowPerKey(t, GroupKeys(recs, IsLate, SellerCityKey))
    ensures forall i :: 0 <= i < |t| ==> t[i].count == Count(recs, IsLate, SellerCityKey, t[i].key) && t[i].count >= 1
    ensures SumCounts(t) == CountKept(recs, IsLate, SellerCityKey)
  {
    var g := LateGroups(recs);
    SortedRows(g, GroupKeys(recs, IsLate, SellerCityKey), k => Count(recs, IsLate, SellerCityKey, k));
    SortByCount(g)
  }

  /** The counts of the groups over an ascending list of exactly the group keys add
      up to the number of lines that fall in some group. */
  lemma {:induction false} KeyedCountsTotal(recs: seq<Record>, keep: Record -> bool, key: Record -> Option<string>, ks: seq<string>)
    requires Ascending(ks) && forall k :: k in ks <==> k in GroupKeys(recs, keep, key)
    ensures SumCounts(KeyedCounts(recs, keep, key, ks)) == CountKept(recs, keep, key)
  {
    AscendingNoDup(ks);
    assert forall r :: r in recs && keep(r) && key(r).Some? ==> key(r).value in GroupKeys(recs, keep, key);
    CountPartition(recs, keep, key, ks);
    SumKeyedCounts(recs, keep, key, ks);
  }

  lemma {:induction false} SumKeyedCounts(recs: seq<Record>, keep: Record -> bool, key: Record -> Option<string>, ks: seq<string>)
    ensures SumCounts(KeyedCounts(recs, keep, key, ks)) == CountOver(recs, keep, key, ks)
  {
    if ks != [] {
      SumKeyedCounts(recs, keep, key, ks[1..]);
      var t := KeyedCounts(recs, keep, key, ks);
      assert t[1..] == KeyedCounts(recs, keep, key, ks[1..]);
    }
  }

  // ------------------------------------------------------------------------ RFM

  /** A customer's row of the RFM table: days since the customer's last purchase
      (recency), distinct orders (frequency) and total payment (monetary). */
  datatype RfmRow = RfmRow(customerId: string, frequency: nat, monetary: real, recency: int)

  /** The latest purchase timestamp among one customer's lines. */
  function LatestPurchase(recs: seq<Record>, c: string): (ts: int)
    requires c in GroupKeys(recs, Always, CustomerKey)
    ensures exists r :: r in recs && r.customerId == c && r.purchaseTs == ts
    ensures forall r :: r in recs && r.customerId == c ==> r.purchaseTs <= ts
  {
    assert recs != [];
    GroupKeysCons(recs, Always, CustomerKey);
    assert forall r :: r in recs <==> r == recs[0] || r in recs[1..];
    if c !in GroupKeys(recs[1..], Always, CustomerKey) then
      recs[0].purchaseTs
    else
      var m := LatestPurchase(recs[1..], c);
      if recs[0].customerId == c && recs[0].purchaseTs > m then recs[0].purchaseTs else m
  }

  lemma CustomerHasLines(recs: seq<Record>, c: string)
    requires c in GroupKeys(recs, Always, CustomerKey)
    ensures recs != []
  {
  }

  /** The RFM row of customer c, keyed on the full customer id. Recency counts days
      back from the latest purchase day of the whole (filtered) ledger, not from today. */
  function CustomerRfm(recs: seq<Record>, c: string): (row: RfmRow)
    requires c in GroupKeys(recs, Always, CustomerKey)
    ensures recs != []
    ensures row.customerId == c
    ensures 1 <= row.frequency <= Count(recs, Always, CustomerKey, c)
    ensures row.recency >= 0
  {
    CustomerHasLines(recs, c);
    var r :| r in recs && r.customerId == c && r.purchaseTs == LatestPurchase(recs, c);
    RfmRow(c,
           |DistinctIds(recs, CustomerKey, c, OrderIdOf)|,
           Payment(recs, CustomerKey, c),
           LastDay(recs) - Day(LatestPurchase(recs, c)))
  }

  function RfmRows(recs: seq<Record>, cs: seq<string>): (t: seq<RfmRow>)
    requires forall c :: c in cs ==> c in GroupKeys(recs, Always, CustomerKey)
    ensures |t| == |cs|
    ensures forall i :: 0 <= i < |cs| ==> t[i] == CustomerRfm(recs, cs[i])
    ensures forall i :: 0 <= i < |cs| ==> t[i].customerId == cs[i]
  {
    if cs == [] then [] else [CustomerRfm(recs, cs[0])] + RfmRows(recs, cs[1..])
  }

  /** The RFM aggregation, one row per distinct full customer id in ascending id
      order: frequency is the customer's distinct orders, at least one and at most
      the customer's lines; monetary the customer's payment total; recency the
      latest purchase day of the ledger minus the customer's own, never negative. */
  function RfmGroups(recs: seq<Record>): (g: seq<RfmRow>)
    ensures forall i, j :: 0 <= i < j < |g| ==> Below(g[i].customerId, g[j].customerId)
    ensures forall c :: c in GroupKeys(recs, Always, CustomerKey) <==> exists i :: 0 <= i < |g| && g[i].customerId == c
    ensures forall i :: 0 <= i < |g| ==>
              && g[i].customerId in GroupKeys(recs, Always, CustomerKey)
              && g[i].frequency == |DistinctIds(recs, CustomerKey, g[i].customerId, OrderIdOf)|
              && 1 <= g[i].frequency <= Count(recs, Always, CustomerKey, g[i].customerId)
              && g[i].monetary == Payment(recs, CustomerKey, g[i].customerId)
              && g[i].recency == LastDay(recs) - Day(LatestPurchase(recs, g[i].customerId))
              && g[i].recency >= 0
  {
    var cs := SortedKeys(recs, Always, CustomerKey);
    var g := RfmRows(recs, cs);
    RfmRowsShape(recs, cs, g);
    g
  }

  lemma RfmRowsShape(recs: seq<Record>, cs: seq<string>, g: seq<RfmRow>)
    requires Ascending(cs) && forall c :: c in cs <==> c in GroupKeys(recs, Always, CustomerKey)
    requires g == RfmRows(recs, cs)
    ensures forall i, j :: 0 <= i < j < |g| ==> Below(g[i].customerId, g[j].customerId)
    ensures forall c :: c in GroupKeys(recs, Always, CustomerKey) <==> exists i :: 0 <= i < |g| && g[i].customerId == c
  {
    forall c | c in GroupKeys(recs, Always, CustomerKey) ensures exists i :: 0 <= i < |g| && g[i].customerId == c {
      var i :| 0 <= i < |cs| && cs[i] == c;
      assert g[i].customerId == c;
    }
    forall i, j | 0 <= i < j < |g| ensures Below(g[i].customerId, g[j].customerId) {
      assert g[i].customerId == cs[i] && g[j].customerId == cs[j];
    }
  }

  /** The last characters of a string, as Python's s[-n:] takes them: the whole
      string when it is shorter. */
  function LastChars(s: string, n: nat): (r: string)
    ensures |r| == if |s| <= n then |s| else n
    ensures s == s[..|s| - |r|] + r
  {
    if |s| <= n then s else s[|s| - n..]
  }

  /** create_rfm_df: the RFM aggregation with each customer id cut to its last ten
      characters only after grouping, so customers whose ids share a suffix keep
      separate rows. */
  function RfmTable(recs: seq<Record>): (t: seq<RfmRow>)
    ensures |t| == |RfmGroups(recs)|
    ensures forall i :: 0 <= i < |t| ==>
              var g := RfmGroups(recs)[i];
              t[i] == g.(customerId := LastChars(g.customerId, 10))
  {
    var g := RfmGroups(recs);
    seq(|g|, i requires 0 <= i < |g| => g[i].(customerId := LastChars(g[i].customerId, 10)))
  }
}
