# E-commerce dashboard aggregations, modelled in Dafny

This project models the aggregation layer of a Streamlit e-commerce dashboard
(`Dashboard/dashboard.py`). Seven pure transforms turn the date-filtered
order-line ledger into the tables the dashboard shows:

- the daily order series (distinct orders and revenue per day);
- order lines per product category;
- distinct customers per customer city and per customer state;
- cancelled lines per product category;
- late lines per seller city;
- the RFM table (recency, frequency, monetary per customer).

It also models the sidebar's date-window filter.

The ledger is a `seq<Ledger.Record>`. The nullable columns (product id,
category, delivery status) are `Option`s. Timestamps are whole seconds on the
data's own clock, and the calendar day is `ts / 86400` rounded down.
`payment_value` is a `real`. Each transform is a Dafny function whose contract
states what the table holds. Lemmas in `DashboardLaws` relate the tables to the
ledger as a whole.

Modules:

- `Wrappers`: `Option`.
- `Ordering`: Python's string order, used for group-by keys.
- `Ledger`: the record, calendar days and the date window.
- `Grouping`: group keys, sizes, distinct ids, payment sums and the partition lemmas.
- `Tables`: count tables and the descending sort.
- `Dashboard`: the seven transforms.
- `DashboardLaws`: whole-table properties.
- `DashboardExample`: a three-line ledger worked through the daily series and the RFM table.

Some behaviours of the code are easy to mistake, and the model states them as
the code has them:

- The daily series is dense. `resample('D')` emits every day from the first to
  the last purchase day, and a day without purchases has 0 orders and 0 revenue.
- The state table keeps the group-by's ascending key order. It is not re-sorted
  by count.
- Ties in the count-sorted tables are left open. The code uses pandas' default,
  unstable `sort_values` and no secondary key.
- Malformed timestamps are not handled per record. Parsing happens at load time,
  outside the transforms.

## Model

| member | source | states |
|---|---|---|
| `Ledger.Day` | Dashboard/dashboard.py:71-72 | the calendar day of a timestamp is the one whose midnight is the latest at or before it (floor, also before the epoch) |
| `Ledger.Window` | Dashboard/dashboard.py:97 | the filtered ledger keeps exactly the lines whose timestamp passes the window, each with all of its copies (duplicates are not merged), and no more lines than it had |
| `Ledger.WindowByDay` | Dashboard/dashboard.py:97 | a timestamp passes exactly when its day is from the start date to the day before the end date, or it is midnight of the end date; later purchases on the end date are excluded |
| `Ledger.WindowDays` | Dashboard/dashboard.py:97 | every line that passes the window was bought on a day between the two chosen dates |
| `Ledger.DayMonotone` | Dashboard/dashboard.py:71-72 | a later timestamp never falls on an earlier day |
| `Ordering.InsertKey` | Dashboard/dashboard.py:22 | adding a key to an ascending key list keeps it ascending and duplicate-free and adds exactly that key |
| `Ordering.BelowTotal` | Dashboard/dashboard.py:22 | any two distinct group keys are ordered one way or the other, so the group-by key order is total |
| `Ordering.BelowTransitive` | Dashboard/dashboard.py:22 | the group-by key order is transitive |
| `Ordering.BelowIrreflexive` | Dashboard/dashboard.py:22 | no key sorts before itself |
| `Grouping.SortedKeys` | Dashboard/dashboard.py:22 | the group-by emits its keys ascending, without duplicates, exactly the non-null keys of the lines the filter keeps |
| `Grouping.Count` | Dashboard/dashboard.py:47 | a group's size is at most the ledger length, and it is positive exactly when the key is one of the group keys |
| `Grouping.CountKept` | Dashboard/dashboard.py:46-47 | the number of lines that land in some group is positive exactly when there is a group |
| `Grouping.DistinctIds` | Dashboard/dashboard.py:30 | a group's distinct ids (nunique) number at most its lines, and are non-empty exactly when the group exists |
| `Grouping.DistinctIdsMembers` | Dashboard/dashboard.py:30 | an id is counted for a group exactly when some line of the group carries it |
| `Grouping.Payment` | Dashboard/dashboard.py:11 | the payment sum of a key with no lines is zero |
| `Grouping.PaymentPartition` | Dashboard/dashboard.py:64-68 | payment sums over a duplicate-free key list covering every line add up to the ledger's total payment |
| `Grouping.CountPartition` | Dashboard/dashboard.py:46-47 | group sizes over a duplicate-free key list covering every kept, keyed line add up to the number of such lines |
| `Tables.InsertByCount` | Dashboard/dashboard.py:26 | inserting a row keeps the table sorted by count, largest first, adds exactly that row, and keeps keys distinct |
| `Tables.SortByCount` | Dashboard/dashboard.py:26 | `sort_values(ascending=False)` yields a permutation of the rows, with counts non-increasing, the same count total, and distinct keys kept distinct |
| `Tables.SortedRows` | Dashboard/dashboard.py:26 | sorting a one-row-per-key table whose counts are a function of the key keeps one row per key, each with its key's count |
| `Tables.PermutedRows` | Dashboard/dashboard.py:26 | a permutation of a one-row-per-key table is again one, and contains only the original rows |
| `Dashboard.FirstDay` | Dashboard/dashboard.py:9 | the first day of the daily series is a purchase day, and no line is earlier |
| `Dashboard.LastDay` | Dashboard/dashboard.py:72 | the latest purchase day (`recent_date`) is a purchase day, and no line is later |
| `Dashboard.DayRange` | Dashboard/dashboard.py:9 | the resampled days are consecutive, starting at the first day |
| `Dashboard.DailyOrders` | Dashboard/dashboard.py:8-19 | empty ledger gives empty series; otherwise one row per day from the first to the last purchase day, ascending and contiguous; each row holds the distinct orders and the payment sum of its day |
| `Dashboard.CategoryGroups` | Dashboard/dashboard.py:22 | categories ascending, one row per non-null category, each counting the category's lines with a non-null product id |
| `Dashboard.ProductVolume` | Dashboard/dashboard.py:21-27 | a permutation of the category groups, with counts non-increasing; one row per non-null category, holding its lines with a product id |
| `Dashboard.CityGroups` | Dashboard/dashboard.py:30 | cities ascending, one row per city, each with its number of distinct customers |
| `Dashboard.CustomersByCity` | Dashboard/dashboard.py:29-35 | a permutation of the city groups, with counts non-increasing; each city's count is its distinct customers, between 1 and its number of lines |
| `Dashboard.CustomersByState` | Dashboard/dashboard.py:37-43 | states in ascending key order, not re-sorted; one row per state with its distinct customers, between 1 and its number of lines |
| `Dashboard.CancelGroups` | Dashboard/dashboard.py:46-47 | categories of cancelled lines ascending, one row each with its cancelled lines; the counts add up to the cancelled lines with a category |
| `Dashboard.CancelledByCategory` | Dashboard/dashboard.py:45-53 | only "canceled" lines with a category are counted, one row per such category, each count at least 1; counts add up to those lines; a permutation of the groups, largest first |
| `Dashboard.LateGroups` | Dashboard/dashboard.py:56-57 | seller cities of late lines ascending, one row each with its late lines; the counts add up to the late lines |
| `Dashboard.LateBySellerCity` | Dashboard/dashboard.py:55-60 | only lines with delivery status "late" are counted, one row per seller city, each count at least 1; counts add up to the late lines; a permutation of the groups, largest first |
| `Dashboard.KeyedCountsTotal` | Dashboard/dashboard.py:47 | the counts of the groups over the ascending group keys add up to the lines that fall in some group |
| `Dashboard.LatestPurchase` | Dashboard/dashboard.py:65 | a customer's `max` timestamp is one of their purchases and no purchase of theirs is later |
| `Dashboard.CustomerRfm` | Dashboard/dashboard.py:64-73 | a customer's row has frequency between 1 and their number of lines, and recency never negative |
| `Dashboard.RfmGroups` | Dashboard/dashboard.py:63-73 | one row per distinct full customer id, ascending; frequency = distinct orders (between 1 and the customer's lines); monetary = payment sum; recency = ledger's latest day minus the customer's latest day, at least 0 |
| `Dashboard.LastChars` | Dashboard/dashboard.py:70 | `s[-10:]` is a suffix of s of length min(len(s), 10) |
| `Dashboard.RfmTable` | Dashboard/dashboard.py:63-76 | the RFM aggregation with ids cut to their last 10 characters only after grouping; row for row the same otherwise |
| `DashboardLaws.DailyRevenueTotal` | Dashboard/dashboard.py:9-17 | the daily revenue column adds up to the ledger's total payment (revenue is per line, not per order) |
| `DashboardLaws.DailyOrdersTotal` | Dashboard/dashboard.py:8-19 | the sum of the daily order column (the total-orders metric) never exceeds the number of lines: an order of several lines counts once on its day |
| `DashboardLaws.DailyQuietDays` | Dashboard/dashboard.py:9-12 | a day counts 0 orders exactly when nobody bought that day, and then its revenue is 0; otherwise its orders are at most its lines |
| `DashboardLaws.DailyCoversEveryLine` | Dashboard/dashboard.py:9 | every line's day has a row, and the series starts and ends on days with orders |
| `DashboardLaws.DayRangeCovers` | Dashboard/dashboard.py:9 | the resampled days are duplicate-free and include every line's day |
| `DashboardLaws.RfmMonetaryTotal` | Dashboard/dashboard.py:67 | the monetary column adds up to the ledger's total payment |
| `DashboardLaws.RfmRecencyZero` | Dashboard/dashboard.py:72-73 | a non-empty ledger has a customer with recency 0 |
| `DashboardLaws.LatestCustomer` | Dashboard/dashboard.py:72-73 | some customer's own latest day is the ledger's latest day |
| `DashboardLaws.RfmOneRowPerCustomer` | Dashboard/dashboard.py:64-70 | the RFM table has exactly as many rows as distinct full customer ids; truncation merges nobody |
| `DashboardLaws.EmptyLedger` | Dashboard/dashboard.py:8-76 | every transform maps the empty ledger to an empty table |
| `DashboardLaws.WindowedDailySeries` | Dashboard/dashboard.py:97-99 | on a windowed ledger the daily series lies between the two chosen dates, so it has at most end - start + 1 rows |
| `DashboardLaws.WindowedRecency` | Dashboard/dashboard.py:97-105 | on a windowed ledger every recency is between 0 and end - start days: recency is relative to the window, not to today |
| `DashboardExample.SampleDailySeries` | Dashboard/dashboard.py:8-19 | on two lines of one order on 2024-01-01 and one order on 2024-01-03, the series has three rows: (1 order, 15.0), an empty 2024-01-02 with (0, 0.0), and (1, 20.0) |
| `DashboardExample.SampleRfm` | Dashboard/dashboard.py:63-73 | on the same ledger the RFM aggregation (full ids) is X with 1 order, 15.0 spent, 2 days since the last purchase, then Y with 1 order, 20.0 spent, 0 days |
| `DashboardExample.SampleRfmTable` | Dashboard/dashboard.py:63-74 | ids of at most ten characters pass the truncation unchanged, so the sample's displayed RFM table is the same two rows |

## Left out

- Loading the CSV, the in-place sort and `reset_index`, and the `pd.to_datetime` conversions (lines 78-88). These are file I/O and parsing. Timestamps arrive as integers.
- The Streamlit sidebar, metrics, layout and the matplotlib/seaborn charts, including the `head(5)`/`head(10)` display slices and the re-sorts done only for charts (lines 90-274). These are presentation.
- Babel currency formatting (lines 118, 247). It is a foreign locale library.
- The rounded averages of recency, frequency and monetary (lines 239-248). They are floating-point presentation.
- Floating point: payments are exact `real`s. Sums are exact, with no rounding and no NaN payments.
- Nulls: only product id, category and delivery status are optional. Order id, customer id, cities, state, status and timestamp are always present. Null keys are dropped from a group-by, and a null delivery status is never "late".
- Time zones: none are converted. The day is taken on the data's own clock, as the source does.
- Column names and the `rename` calls: each table is a sequence of rows with named fields.
- Dashboard.ProductVolume, Dashboard.CustomersByCity, Dashboard.CancelledByCategory, Dashboard.LateBySellerCity: no order among rows with equal counts is promised. pandas' default sort is not stable. The model computes some order, and its contract leaves ties open.
