/** A worked three-line ledger: two lines of one order on 2024-01-01 and a
    cancelled order on 2024-01-03. */
module DashboardExample {
  import opened Wrappers
  import opened Ledger
  import opened Grouping
  import opened Ordering
  import opened Dashboard

  /** Midnight of 2024-01-01, in seconds since the epoch. */
  const NewYear: int := 19723 * SecondsPerDay

  function Sample(): seq<Record>
  {
    [ Record("A", "X", Some("p1"), Some("toys"), "delivered", 10.0, NewYear + 3600, "s", "c1", "st", Some("on-time")),
      Record("A", "X", Some("p2"), Some("toys"), "delivered", 5.0, NewYear + 3600, "s", "c1", "st", Some("on-time")),
      Record("B", "Y", Some("p3"), Some("books"), "canceled", 20.0, NewYear + 2 * SecondsPerDay + 60, "s", "c2", "st", None) ]
  }

  /** The purchase day of each sample line, and the span of the sample. */
  lemma SampleDays()
    ensures Day(Sample()[0].purchaseTs) == 19723 && Day(Sample()[1].purchaseTs) == 19723
    ensures Day(Sample()[2].purchaseTs) == 19725
    ensures FirstDay(Sample()) == 19723 && LastDay(Sample()) == 19725
  {
    var recs := Sample();
    assert recs[1..][1..] == [recs[2]];
  }

  /** Order A has two lines but counts once on its day; nobody ordered on the second day. */
  lemma SampleOrders()
    ensures DistinctIds(Sample(), DayKey, 19723, OrderIdOf) == {"A"}
    ensures DistinctIds(Sample(), DayKey, 19724, OrderIdOf) == {}
    ensures DistinctIds(Sample(), DayKey, 19725, OrderIdOf) == {"B"}
  {
    var recs := Sample();
    SampleDays();
    assert recs[1..][1..] == [recs[2]];
    assert recs[1..][1..][1..] == [];
  }

  lemma SampleRevenue()
    ensures Payment(Sample(), DayKey, 19723) == 15.0
    ensures Payment(Sample(), DayKey, 19724) == 0.0
    ensures Payment(Sample(), DayKey, 19725) == 20.0
  {
    var recs := Sample();
    SampleDays();
    assert recs[1..][1..] == [recs[2]];
    assert recs[1..][1..][1..] == [];
  }

  /** The daily series is dense: the empty 2024-01-02 has its own row with no
      orders and no revenue, and the two lines of order A count once. */
  lemma SampleDailySeries()
    ensures DailyOrders(Sample()) ==
            [DailyRow(19723, 1, 15.0), DailyRow(19724, 0, 0.0), DailyRow(19725, 1, 20.0)]
  {
    SampleDays();
    SampleOrders();
    SampleRevenue();
    assert |{"A"}| == 1 && |{"B"}| == 1;
    assert DayRow(Sample(), 19723) == DailyRow(19723, 1, 15.0);
    assert DayRow(Sample(), 19724) == DailyRow(19724, 0, 0.0);
    assert DayRow(Sample(), 19725) == DailyRow(19725, 1, 20.0);
    ThreeDays(Sample());
    RowsOfThree(Sample(), 19723, [DailyRow(19723, 1, 15.0), DailyRow(19724, 0, 0.0), DailyRow(19725, 1, 20.0)]);
  }

  lemma ThreeDays(recs: seq<Record>)
    requires recs != [] && LastDay(recs) == FirstDay(recs) + 2
    ensures DailyOrders(recs) == DailyRows(recs, DayRange(FirstDay(recs), 3))
  {
  }

  lemma RowsOfThree(recs: seq<Record>, d: int, rows: seq<DailyRow>)
    requires rows == [DayRow(recs, d), DayRow(recs, d + 1), DayRow(recs, d + 2)]
    ensures DailyRows(recs, DayRange(d, 3)) == rows
  {
    var ds := DayRange(d, 3);
    assert ds == [d, d + 1, d + 2];
  }

  /** The customers of the sample, in ascending id order. */
  lemma SampleCustomers()
    ensures SortedKeys(Sample(), Always, CustomerKey) == ["X", "Y"]
  {
    var recs := Sample();
    assert recs[1..][1..] == [recs[2]];
    assert recs[1..][1..][1..] == [];
    assert SortedKeys(recs[1..][1..], Always, CustomerKey) == ["Y"];
    assert Below("X", "Y");
    assert SortedKeys(recs[1..], Always, CustomerKey) == ["X", "Y"];
  }

  /** Customer X: one order of two lines, bought two days before the ledger's last day. */
  lemma SampleRfmX()
    ensures "X" in GroupKeys(Sample(), Always, CustomerKey)
    ensures CustomerRfm(Sample(), "X") == RfmRow("X", 1, 15.0, 2)
  {
    var recs := Sample();
    SampleDays();
    assert recs[0] in recs;
    assert recs[1..][1..] == [recs[2]];
    assert recs[1..][1..][1..] == [];
    assert DistinctIds(recs, CustomerKey, "X", OrderIdOf) == {"A"};
    assert |{"A"}| == 1;
    assert Payment(recs, CustomerKey, "X") == 15.0;
    assert LatestPurchase(recs, "X") == recs[0].purchaseTs;
  }

  /** Customer Y: one order, bought on the ledger's last day. */
  lemma SampleRfmY()
    ensures "Y" in GroupKeys(Sample(), Always, CustomerKey)
    ensures CustomerRfm(Sample(), "Y") == RfmRow("Y", 1, 20.0, 0)
  {
    var recs := Sample();
    SampleDays();
    assert recs[2] in recs;
    assert recs[1..][1..] == [recs[2]];
    assert recs[1..][1..][1..] == [];
    assert DistinctIds(recs, CustomerKey, "Y", OrderIdOf) == {"B"};
    assert |{"B"}| == 1;
    assert Payment(recs, CustomerKey, "Y") == 20.0;
    assert LatestPurchase(recs, "Y") == recs[2].purchaseTs;
  }

  /** The RFM table of the sample: one row per customer in id order; monetary adds
      up every line of the customer, recency counts days back from the last day. */
  lemma SampleRfm()
    ensures RfmGroups(Sample()) == [RfmRow("X", 1, 15.0, 2), RfmRow("Y", 1, 20.0, 0)]
  {
    SampleCustomers();
    SampleRfmX();
    SampleRfmY();
    TwoCustomers(Sample(), "X", "Y");
  }

  /** Both sample ids are shorter than ten characters, so the dashboard's table
      shows the aggregation unchanged. */
  lemma SampleRfmTable()
    ensures RfmTable(Sample()) == [RfmRow("X", 1, 15.0, 2), RfmRow("Y", 1, 20.0, 0)]
  {
    SampleRfm();
    ShortIds(Sample(), RfmRow("X", 1, 15.0, 2), RfmRow("Y", 1, 20.0, 0));
  }

  /** Ids of at most ten characters come through the truncation unchanged. */
  lemma ShortIds(recs: seq<Record>, x: RfmRow, y: RfmRow)
    requires RfmGroups(recs) == [x, y] && |x.customerId| <= 10 && |y.customerId| <= 10
    ensures RfmTable(recs) == [x, y]
  {
    var t := RfmTable(recs);
    assert LastChars(x.customerId, 10) == x.customerId && LastChars(y.customerId, 10) == y.customerId;
    assert |t| == 2;
    assert t[0] == RfmGroups(recs)[0].(customerId := LastChars(x.customerId, 10));
    assert t[1] == RfmGroups(recs)[1].(customerId := LastChars(y.customerId, 10));
  }

  lemma TwoCustomers(recs: seq<Record>, a: string, b: string)
    requires SortedKeys(recs, Always, CustomerKey) == [a, b]
    ensures RfmGroups(recs) == [CustomerRfm(recs, a), CustomerRfm(recs, b)]
  {
    var t := RfmRows(recs, [a, b]);
    assert t == [t[0], t[1]];
  }
}
