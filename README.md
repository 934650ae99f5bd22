# E-shop daily report, modelled in Dafny

This project models `ReportForDate`, the daily report of the e-shop report
application (`eshopreport/models.py`). Given a calendar date, the report reads
three tables and computes seven metrics:

- the items sold;
- the distinct customers;
- the total discount;
- the mean discount rate;
- the mean order total;
- the total commission;
- the mean commission per order.

The three tables are `orders`, `order_line` and `vendor_commissions`.

Each metric is one SQL query followed by a little Python. The model writes
each query as pure functions over the tables, which are sequences of rows:

- `WHERE` filters;
- inner joins, with one joined row per matching pair or triple, so rows are
  counted with multiplicity as SQL counts them;
- `DISTINCT` and `GROUP BY` groups;
- the aggregates `SUM` and `AVG`.

The Python part is modelled explicitly. This covers `[0]` on the result list,
`len`, `sum` and `statistics.mean`. An exception is a `Failure` carrying
`IndexError` or `StatisticsError`.

Modules:

- `Wrappers` (`wrappers.dfy`): the two exceptions, plus `Result` and `Option`.
- `Store` (`store.dfy`): the row shapes of `orders`, `order_line` and
  `vendor_commissions`, and the store as three sequences of rows.
- `Relational` (`relational.dfy`): the generic building blocks:
  - the filter `Where`;
  - `Distinct`, for the DISTINCT values and GROUP BY groups, in order of
    first occurrence;
  - `RSum`, `ISum` and `Avg`;
  - the per-group sums `GroupSums`;
  - Python's `sum` (`Sum`) and `statistics.mean` (`Mean`);
  - their lemmas.
- `Joins` (`joins.dfy`) holds the two joined row sets of a date:
  - `LineRows`: `orders JOIN order_line`;
  - `CommissionRows`: `orders JOIN vendor_commissions JOIN order_line`, with
    the commission dated on the order's own date.

  It also holds lemmas that count every joined row's multiplicity, and lemmas
  saying which rows the inner joins drop.
- `Report` (`report.dfy`): the seven metrics, the report record, the results
  dictionary, and the properties relating them.

The metrics behave as follows on a day without data:

- `get_total_items`, `get_total_discount` and `get_avg_discount_rate` read
  the first group of `GROUP BY created_at`. When no order of the date has a
  line there is no group, and `[0]` raises `IndexError`.
- `get_avg_order_total` and `get_avg_commissions_per_order` call
  `statistics.mean` on an empty list, which raises `StatisticsError`.
- `get_total_customers` returns 0, since it is `len([])`.
- `get_total_commissions` returns 0, since it is `sum([])`.

The constructor evaluates the metrics in source order, so on such a day it
raises the `IndexError` of `get_total_items` first. A day without sales
raises `IndexError` rather than reporting 0 items or 0 discount, and the model
follows the code.

There is a second failure mode. Suppose a date has lined orders, but no
order's vendor has a commission row dated that day. Then constructing the
report raises `StatisticsError`, which is a `ValueError`. The web front end
catches only `IndexError` for "no data", so this case would reach its
"enter a date" message. The front end is not part of this model.
`ReportForDate`'s contract states exactly when each of the two errors occurs.

## Model

| member | source | states |
|---|---|---|
| `Report.TotalItems` | eshopreport/models.py:182-190 | Succeeds exactly when the date's line join is non-empty, and then gives SUM(quantity) over all of it. Otherwise it fails with IndexError. |
| `Report.TotalCustomers` | eshopreport/models.py:192-197 | The number of distinct customer ids among the date's orders, with no join to lines. It is 0 (not an error) when there are no orders. |
| `Report.TotalDiscount` | eshopreport/models.py:199-207 | Same success and failure as `TotalItems`. On success the value is SUM(full_price_amount) − SUM(discounted_amount) over the joined rows. |
| `Report.AvgDiscountRate` | eshopreport/models.py:209-218 | Same success and failure as `TotalItems`. On success the value is the AVG of discount_rate over the joined rows. |
| `Report.AvgOrderTotal` | eshopreport/models.py:220-232 | Succeeds exactly when the line join is non-empty, and otherwise fails with StatisticsError. On success the value is the SUM of total_amount over the date's lines divided by the number of distinct lined order ids, which is positive. |
| `Report.TotalCommissions` | eshopreport/models.py:234-250 | The SUM of rate × total_amount over every (order, commission row, line) triple of the date. |
| `Report.AvgCommissionsPerOrder` | eshopreport/models.py:252-266 | Succeeds exactly when some triple matches, and otherwise fails with StatisticsError. On success the value is `TotalCommissions` divided by the number of matched order ids, which is positive. Unmatched orders are not in the denominator. |
| `Report.ReportForDate` | eshopreport/models.py:148-157 | With no lined order it fails with IndexError. With lined orders but no matching commission it fails with StatisticsError. It succeeds exactly when some triple matches, and then stores the date and each of the seven metric values computed for that same date. |
| `Report.GetAllResults` | eshopreport/models.py:169-180 | The dictionary has exactly the eight keys. Reading it back gives the same report, so every value is stored unchanged. |
| `Report.LinedOrderCount` | eshopreport/models.py:221-228 | GROUP BY orders.id_ over the line join has exactly one group per id of a lined order of the date. |
| `Report.MatchedOrderCount` | eshopreport/models.py:253-263 | GROUP BY orders.id_ over the commission join has exactly one group per id of a matched order of the date. |
| `Report.TotalItemsDefined` | eshopreport/models.py:183-190 | `get_total_items` succeeds if and only if some order of the date has at least one line. |
| `Report.AvgOrderTotalTimesOrders` | eshopreport/models.py:221-232 | The mean order total times the number of lined orders equals the SUM of total_amount over all of the date's lines. |
| `Report.AvgDiscountRateInRange` | eshopreport/models.py:142 | If every line's discount rate is in [0, 1), then the mean discount rate is in [0, 1) whenever it exists. |
| `Report.EmptyDay` | eshopreport/models.py:148-266 | On a date with no orders: the three `[0]` metrics raise IndexError, the two means raise StatisticsError, customers and commissions are 0, and the report raises IndexError. |
| `Report.OrdersWithoutLines` | eshopreport/models.py:183-197 | Orders without lines still count as customers (the count is at least 1), while `get_total_items` raises IndexError. |
| `Report.UnmatchedOrderIgnored` | eshopreport/models.py:234-266 | Adding an order whose vendor has no commission row on the order's date changes neither the total commission nor the mean commission per order. |
| `Joins.LineRowsCount` | eshopreport/models.py:184-189 | Each (order, line) row of the date's join occurs (count of the order) × (count of the line) times when the order is on the date and the line is the order's, and 0 times otherwise. |
| `Joins.LineRowsMembers` | eshopreport/models.py:184-189 | A row is in the date's line join if and only if its order and line are in the tables, the order is on the date, and the line belongs to it. |
| `Joins.JoinCommissionsCount` | eshopreport/models.py:241-242 | Each triple of `orders JOIN vendor_commissions JOIN order_line` occurs as often as the product of the three counts when the vendor ids match and the line is the order's, and 0 times otherwise. |
| `Joins.JoinCommissionsMembers` | eshopreport/models.py:241-242 | A triple is in the three-way join if and only if its parts are in the tables, the commission row is the order's vendor's, and the line belongs to the order. |
| `Joins.CommissionRowsCount` | eshopreport/models.py:236-246 | The multiplicity of each triple of the date, after both filters: the product of the three counts when all four conditions hold, and 0 otherwise. |
| `Joins.CommissionRowsMembers` | eshopreport/models.py:236-246 | A triple is kept if and only if it is an order of the date, a commission row of its vendor dated that same day, and a line of that order. |
| `Joins.CommissionRowsHaveLineRows` | eshopreport/models.py:184-189 | Every commission triple of a date carries a row of the date's line join. So a non-empty commission join implies a non-empty line join. |
| `Joins.LineRowsNonEmpty` | eshopreport/models.py:184-189 | The date's line join is non-empty if and only if some order of the date has a line. |
| `Joins.NoOrdersNoRows` | eshopreport/models.py:188 | A date with no orders has empty line and commission joins. |
| `Joins.SingleDateGroup` | eshopreport/models.py:188-189 | GROUP BY created_at over the date's rows is the single group of that date, and this group is the whole row set. So `[0]` reads the total over every joined row. |
| `Joins.UnmatchedOrderAddsNoTriple` | eshopreport/models.py:243-244 | Appending an order whose vendor has no commission row dated on its day leaves the date's commission triples unchanged. |
| `Joins.JoinCommissionsAppend` | eshopreport/models.py:241-242 | The three-way join of a concatenation of order tables is the concatenation of their joins. |
| `Relational.Mean` | eshopreport/models.py:230 | `statistics.mean` succeeds exactly on a non-empty list, and its value times the list's length is the list's sum (the arithmetic mean). On an empty list it fails with StatisticsError. |
| `Relational.Distinct` | eshopreport/models.py:194-196 | The DISTINCT values have no duplicates, include every row's key, and include only keys some row has. |
| `Relational.DistinctCount` | eshopreport/models.py:197 | `len` of the DISTINCT result equals the number of different key values among the rows. |
| `Relational.GroupSumsTotal` | eshopreport/models.py:248 | Adding up the per-group SUMs of a GROUP BY gives the ungrouped SUM. There is one sum per group. |
| `Relational.WhereCount` | eshopreport/models.py:188 | A WHERE filter keeps each matching row exactly as often as it occurs, and drops every other row. |
| `Relational.RSumDifference` | eshopreport/models.py:203 | SUM(a − b) equals SUM(a) − SUM(b). |
| `Relational.AvgBounds` | eshopreport/models.py:213 | An AVG of values in [lo, hi) lies in [lo, hi). |

## Left out

- The table declarations (eshopreport/models.py:13-132). They are schema and ORM wiring. Only the columns the report reads are kept, as the datatypes of `Store`.
- The remaining columns of the tables the report does use: line and product ids, product description, price, VAT rate and VAT amount. The report never reads them.
- The tables the report never reads: `Product`, `Promotion` and `ProductPromotion`.
- Primary keys and uniqueness. Rows are plain sequences, and duplicates are allowed and counted with multiplicity. Grouping by `orders.id_` merges orders that share an id.
- NULL columns. `order_line.order_id` and `vendor_commissions.vendor_id` are nullable in the schema, but are integers here. A NULL key never matches a join, so such rows would drop out in the same way.
- `ReportForDate.__str__` (eshopreport/models.py:159-167). It only rounds and formats values for display.
- The database session. The store's contents are a parameter of every metric instead of being read through a global session.
- The web front end, the CSV data loader and the application bootstrap (`routes.py`, `generate_data.py`, `__init__.py`). These are request handling, file I/O and configuration.
- The numeric expectations of `tests/test_report.py`. They depend on a data file that is not part of this model, and on float rounding.
- IEEE floating point. Money and rates are exact reals, so sums do not depend on addition order and there is no rounding.
- `Relational.ISum`: integers are unbounded. The database's `SUM` over the integer `quantity` column raises an integer-overflow error instead of returning a total beyond 64 bits; the model does not capture that error, which realistic data never reaches.
- The order of GROUP BY groups. SQL leaves it unspecified; the model lists groups in order of first occurrence. No metric depends on it: the `[0]` metrics have a single group, and `sum` and `mean` do not depend on order.
- Idempotence of the metrics. They are pure functions of the store and the date, so two calls on the same store agree by construction.
