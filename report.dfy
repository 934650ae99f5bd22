/**
  `ReportForDate`: the seven daily metrics of the e-shop report, each one
  query over the store for a single creation date, and the report record that
  evaluates them in turn.
*/
module Report {
  import opened Wrappers
  import opened Store
  import opened Relational
  import opened Joins

  // ------------------------------------------------------ column projections

  function Quantity(r: LineRow): int { r.line.quantity }
  function FullPrice(r: LineRow): real { r.line.fullPriceAmount }
  function Discounted(r: LineRow): real { r.line.discountedAmount }
  /** The SQL expression `full_price_amount - discounted_amount`. */
  function Discount(r: LineRow): real { r.line.fullPriceAmount - r.line.discountedAmount }
  function DiscountRate(r: LineRow): real { r.line.discountRate }
  function LineTotal(r: LineRow): real { r.line.totalAmount }
  /** The SQL expression `vendor_commissions.rate * order_line.total_amount`. */
  function CommissionAmount(r: CommissionRow): real { r.commission.rate * r.line.totalAmount }
  function CreatedAt(o: Order): Date { o.createdAt }
  function CustomerId(o: Order): int { o.customerId }

  /** The ids of the orders of date `d` that have at least one line. */
  ghost function LinedOrderIds(s: Store, d: Date): set<int>
  {
    set o | o in s.orders && o.createdAt == d && (exists l :: l in s.lines && l.orderId == o.id) :: o.id
  }

  /**
    The ids of the orders of date `d` that have at least one line and whose
    vendor has a commission row dated `d`.
  */
  ghost function MatchedOrderIds(s: Store, d: Date): set<int>
  {
    set o | o in s.orders && o.createdAt == d
            && (exists c :: c in s.commissions && c.vendorId == o.vendorId && c.date == d)
            && (exists l :: l in s.lines && l.orderId == o.id)
      :: o.id
  }

  // ------------------------------------------------------------- the metrics

  /**
    `get_total_items`: SUM(quantity) over the date's joined rows, read from the
    first (only) group of `GROUP BY created_at`; `[0]` raises IndexError when
    there is no group.
  */
  function TotalItems(s: Store, d: Date): (r: Result<int>)
    ensures r.Success? <==> LineRows(s, d) != []
    ensures r.Failure? ==> r.error == IndexError
    ensures r.Success? ==> r.value == ISum(LineRows(s, d), Quantity)
  {
    SingleDateGroup(s, d);
    var groups := Distinct(LineRows(s, d), RowDate);
    if groups == [] then Failure(IndexError)
    else Success(ISum(Where(LineRows(s, d), RowDate, groups[0]), Quantity))
  }

  /**
    `get_total_customers`: the number of DISTINCT customer ids among the
    orders of the date; no join, so orders without lines count too.
  */
  function TotalCustomers(s: Store, d: Date): (r: nat)
    ensures r == |set o | o in s.orders && o.createdAt == d :: o.customerId|
  {
    var onDate := Where(s.orders, CreatedAt, d);
    DistinctCount(onDate, CustomerId, set o | o in s.orders && o.createdAt == d :: o.customerId);
    |Distinct(onDate, CustomerId)|
  }

  /**
    `get_total_discount`: SUM(full_price_amount - discounted_amount) over the
    same single group as `get_total_items`.
  */
  function TotalDiscount(s: Store, d: Date): (r: Result<real>)
    ensures r.Success? <==> LineRows(s, d) != []
    ensures r.Failure? ==> r.error == IndexError
    ensures r.Success? ==> r.value == RSum(LineRows(s, d), FullPrice) - RSum(LineRows(s, d), Discounted)
  {
    SingleDateGroup(s, d);
    RSumDifference(LineRows(s, d), FullPrice, Discounted, Discount);
    var groups := Distinct(LineRows(s, d), RowDate);
    if groups == [] then Failure(IndexError)
    else Success(RSum(Where(LineRows(s, d), RowDate, groups[0]), Discount))
  }

  /** `get_avg_discount_rate`: AVG(discount_rate) over the same single group. */
  function AvgDiscountRate(s: Store, d: Date): (r: Result<real>)
    ensures r.Success? <==> LineRows(s, d) != []
    ensures r.Failure? ==> r.error == IndexError
    ensures r.Success? ==> LineRows(s, d) != [] && r.value == Avg(LineRows(s, d), DiscountRate)
  {
    SingleDateGroup(s, d);
    var groups := Distinct(LineRows(s, d), RowDate);
    if groups == [] then Failure(IndexError)
    else Success(Avg(Where(LineRows(s, d), RowDate, groups[0]), DiscountRate))
  }

  /**
    `get_avg_order_total`: `statistics.mean` of the per-order SUM(total_amount)
    of `GROUP BY orders.id_`; raises StatisticsError when there is no group.
  */
  function AvgOrderTotal(s: Store, d: Date): (r: Result<real>)
    ensures r.Success? <==> LineRows(s, d) != []
    ensures r.Failure? ==> r.error == StatisticsError
    ensures r.Success? ==>
      |LinedOrderIds(s, d)| > 0 && r.value == RSum(LineRows(s, d), LineTotal) / (|LinedOrderIds(s, d)| as real)
  {
    GroupSumsTotal(LineRows(s, d), RowOrderId, LineTotal);
    DistinctEmpty(LineRows(s, d), RowOrderId);
    LinedOrderCount(s, d);
    Mean(GroupSums(LineRows(s, d), RowOrderId, LineTotal))
  }

  /**
    `get_total_commissions`: Python `sum` of the per-order
    SUM(rate * total_amount) of the commission join; 0 when no row matches.
  */
  function TotalCommissions(s: Store, d: Date): (r: real)
    ensures r == RSum(CommissionRows(s, d), CommissionAmount)
  {
    GroupSumsTotal(CommissionRows(s, d), TripleOrderId, CommissionAmount);
    Sum(GroupSums(CommissionRows(s, d), TripleOrderId, CommissionAmount))
  }

  /**
    `get_avg_commissions_per_order`: `statistics.mean` of the same per-order
    commission sums; raises StatisticsError when no order matches.
  */
  function AvgCommissionsPerOrder(s: Store, d: Date): (r: Result<real>)
    ensures r.Success? <==> CommissionRows(s, d) != []
    ensures r.Failure? ==> r.error == StatisticsError
    ensures r.Success? ==>
      |MatchedOrderIds(s, d)| > 0 && r.value == TotalCommissions(s, d) / (|MatchedOrderIds(s, d)| as real)
  {
    GroupSumsTotal(CommissionRows(s, d), TripleOrderId, CommissionAmount);
    DistinctEmpty(CommissionRows(s, d), TripleOrderId);
    MatchedOrderCount(s, d);
    Mean(GroupSums(CommissionRows(s, d), TripleOrderId, CommissionAmount))
  }

  // --------------------------------------------------------------- the report

  /** The attributes of a constructed `ReportForDate`. */
  datatype Report = Report(
    date: Date,
    totalItems: int,
    totalCustomers: nat,
    totalDiscount: real,
    avgDiscountRate: real,
    avgOrderTotal: real,
    totalCommissions: real,
    avgCommissionsPerOrder: real)

  /**
    `ReportForDate(date)`: evaluates the seven metrics in order for the same
    date; the first exception raised ends the construction.
  */
  function ReportForDate(s: Store, d: Date): (r: Result<Report>)
    ensures LineRows(s, d) == [] ==> r == Failure(IndexError)
    ensures LineRows(s, d) != [] && CommissionRows(s, d) == [] ==> r == Failure(StatisticsError)
    ensures r.Success? <==> CommissionRows(s, d) != []
    ensures r.Success? ==>
      && r.value.date == d
      && TotalItems(s, d) == Success(r.value.totalItems)
      && TotalCustomers(s, d) == r.value.totalCustomers
      && TotalDiscount(s, d) == Success(r.value.totalDiscount)
      && AvgDiscountRate(s, d) == Success(r.value.avgDiscountRate)
      && AvgOrderTotal(s, d) == Success(r.value.avgOrderTotal)
      && TotalCommissions(s, d) == r.value.totalCommissions
      && AvgCommissionsPerOrder(s, d) == Success(r.value.avgCommissionsPerOrder)
  {
    CommissionRowsHaveLineRows(s, d);
    match TotalItems(s, d)
    case Failure(e) => Failure(e)
    case Success(totalItems) =>
      var totalCustomers := TotalCustomers(s, d);
      match TotalDiscount(s, d)
      case Failure(e) => Failure(e)
      case Success(totalDiscount) =>
        match AvgDiscountRate(s, d)
        case Failure(e) => Failure(e)
        case Success(avgDiscountRate) =>
          match AvgOrderTotal(s, d)
          case Failure(e) => Failure(e)
          case Success(avgOrderTotal) =>
            var totalCommissions := TotalCommissions(s, d);
            match AvgCommissionsPerOrder(s, d)
            case Failure(e) => Failure(e)
            case Success(avgCommissionsPerOrder) =>
              Success(Report(d, totalItems, totalCustomers, totalDiscount, avgDiscountRate,
                             avgOrderTotal, totalCommissions, avgCommissionsPerOrder))
  }

  /** A value of the results dictionary. */
  datatype Value = DateValue(date: Date) | IntValue(n: int) | RealValue(x: real)

  /** The keys of the results dictionary. */
  function ResultKeys(): set<string>
  {
    {"date", "total_items", "total_customers", "total_discount", "avg_discount_rate",
     "avg_order_total", "total_commissions", "avg_commissions_per_order"}
  }

  /** `get_all_results`: the date and the seven stored metrics as a dictionary. */
  function GetAllResults(r: Report): (m: map<string, Value>)
    ensures m.Keys == ResultKeys()
    ensures ReportOf(m) == Some(r)
  {
    map[
      "date" := DateValue(r.date),
      "total_items" := IntValue(r.totalItems),
      "total_customers" := IntValue(r.totalCustomers),
      "total_discount" := RealValue(r.totalDiscount),
      "avg_discount_rate" := RealValue(r.avgDiscountRate),
      "avg_order_total" := RealValue(r.avgOrderTotal),
      "total_commissions" := RealValue(r.totalCommissions),
      "avg_commissions_per_order" := RealValue(r.avgCommissionsPerOrder)]
  }

  /** Reads a report back from a results dictionary, when it has every key with a value of the right kind. */
  function ReportOf(m: map<string, Value>): Option<Report>
  {
    if && ResultKeys() <= m.Keys
       && m["date"].DateValue?
       && m["total_items"].IntValue?
       && m["total_customers"].IntValue? && m["total_customers"].n >= 0
       && m["total_discount"].RealValue?
       && m["avg_discount_rate"].RealValue?
       && m["avg_order_total"].RealValue?
       && m["total_commissions"].RealValue?
       && m["avg_commissions_per_order"].RealValue?
    then
      Some(Report(m["date"].date, m["total_items"].n, m["total_customers"].n,
                  m["total_discount"].x, m["avg_discount_rate"].x, m["avg_order_total"].x,
                  m["total_commissions"].x, m["avg_commissions_per_order"].x))
    else None
  }

  // ------------------------------------------------------------------ lemmas

  /** GROUP BY orders.id_ over the date's joined rows has one group per lined order id. */
  lemma {:induction false} LinedOrderCount(s: Store, d: Date)
    ensures |Distinct(LineRows(s, d), RowOrderId)| == |LinedOrderIds(s, d)|
  {
    var rows := LineRows(s, d);
    LineRowsMembers(s, d);
    forall k ensures k in LinedOrderIds(s, d) <==> exists x :: x in rows && RowOrderId(x) == k {
      if k in LinedOrderIds(s, d) {
        var o, l :| o in s.orders && o.createdAt == d && l in s.lines && l.orderId == o.id && o.id == k;
        assert LineRow(o, l) in rows;
      }
      if exists x :: x in rows && RowOrderId(x) == k {
        var x :| x in rows && RowOrderId(x) == k;
        assert x.order in s.orders && x.line in s.lines && x.line.orderId == x.order.id;
      }
    }
    DistinctCount(rows, RowOrderId, LinedOrderIds(s, d));
  }

  /** GROUP BY orders.id_ over the date's commission triples has one group per matched order id. */
  lemma {:induction false} MatchedOrderCount(s: Store, d: Date)
    ensures |Distinct(CommissionRows(s, d), TripleOrderId)| == |MatchedOrderIds(s, d)|
  {
    var rows := CommissionRows(s, d);
    CommissionRowsMembers(s, d);
    forall k ensures k in MatchedOrderIds(s, d) <==> exists x :: x in rows && TripleOrderId(x) == k {
      if k in MatchedOrderIds(s, d) {
        var o, c, l :| o in s.orders && o.createdAt == d && c in s.commissions && c.vendorId == o.vendorId
          && c.date == d && l in s.lines && l.orderId == o.id && o.id == k;
        assert CommissionRow(o, c, l) in rows;
      }
      if exists x :: x in rows && TripleOrderId(x) == k {
        var x :| x in rows && TripleOrderId(x) == k;
        assert x.order in s.orders && x.commission in s.commissions && x.line in s.lines;
      }
    }
    DistinctCount(rows, TripleOrderId, MatchedOrderIds(s, d));
  }

  /**
    `get_total_items` succeeds exactly when some order of the date has a line.
  */
  lemma {:induction false} TotalItemsDefined(s: Store, d: Date)
    ensures TotalItems(s, d).Success? <==>
      exists o, l :: o in s.orders && l in s.lines && o.createdAt == d && l.orderId == o.id
  {
    LineRowsNonEmpty(s, d);
  }

  /** A mean that divides a total by a positive count, multiplied back by that count, is the total. */
  lemma MeanTimesCount(r: Result<real>, total: real, count: nat)
    requires r.Success? ==> count > 0 && r.value == total / (count as real)
    ensures r.Success? ==> r.value * (count as real) == total
  {
  }

  /**
    `avg_order_total` times the number of lined orders of the date is the
    total of every line of the date.
  */
  lemma {:induction false} AvgOrderTotalTimesOrders(s: Store, d: Date)
    ensures AvgOrderTotal(s, d).Success? ==>
      AvgOrderTotal(s, d).value * (|LinedOrderIds(s, d)| as real) == RSum(LineRows(s, d), LineTotal)
  {
    MeanTimesCount(AvgOrderTotal(s, d), RSum(LineRows(s, d), LineTotal), |LinedOrderIds(s, d)|);
  }

  /** The mean discount rate stays in [0, 1) when every line's rate does. */
  lemma {:induction false} AvgDiscountRateInRange(s: Store, d: Date)
    requires forall l :: l in s.lines ==> 0.0 <= l.discountRate < 1.0
    ensures AvgDiscountRate(s, d).Success? ==> 0.0 <= AvgDiscountRate(s, d).value < 1.0
  {
    var rows := LineRows(s, d);
    LineRowsMembers(s, d);
    if rows != [] {
      AvgBounds(rows, DiscountRate, 0.0, 1.0);
    }
  }

  /**
    A date with no order at all: the three metrics read through `[0]` raise
    IndexError, the two means raise StatisticsError, the customer count and
    the commission total are 0, and constructing the report raises IndexError.
  */
  lemma {:induction false} EmptyDay(s: Store, d: Date)
    requires forall o :: o in s.orders ==> o.createdAt != d
    ensures TotalItems(s, d) == Failure(IndexError)
    ensures TotalCustomers(s, d) == 0
    ensures TotalDiscount(s, d) == Failure(IndexError)
    ensures AvgDiscountRate(s, d) == Failure(IndexError)
    ensures AvgOrderTotal(s, d) == Failure(StatisticsError)
    ensures TotalCommissions(s, d) == 0.0
    ensures AvgCommissionsPerOrder(s, d) == Failure(StatisticsError)
    ensures ReportForDate(s, d) == Failure(IndexError)
  {
    NoOrdersNoRows(s, d);
    assert (set o | o in s.orders && o.createdAt == d :: o.customerId) == {};
  }

  /**
    Orders without lines still count as customers, while the metrics over the
    line join see nothing: a date whose orders have no lines yields a positive
    customer count and an IndexError for the items.
  */
  lemma {:induction false} OrdersWithoutLines(s: Store, d: Date, o: Order)
    requires o in s.orders && o.createdAt == d
    requires forall p, l :: p in s.orders && l in s.lines && p.createdAt == d ==> l.orderId != p.id
    ensures TotalCustomers(s, d) >= 1
    ensures TotalItems(s, d) == Failure(IndexError)
  {
    LineRowsNonEmpty(s, d);
    assert o.customerId in (set p | p in s.orders && p.createdAt == d :: p.customerId);
  }

  /**
    An order whose vendor has no commission row dated on the order's date
    changes neither the commission total nor the mean commission per order:
    it adds nothing to the sum and no group to the mean's denominator.
  */
  lemma {:induction false} UnmatchedOrderIgnored(s: Store, o: Order, d: Date)
    requires forall c :: c in s.commissions ==> !(c.vendorId == o.vendorId && c.date == o.createdAt)
    ensures TotalCommissions(Store(s.orders + [o], s.lines, s.commissions), d) == TotalCommissions(s, d)
    ensures AvgCommissionsPerOrder(Store(s.orders + [o], s.lines, s.commissions), d)
         == AvgCommissionsPerOrder(s, d)
  {
    UnmatchedOrderAddsNoTriple(s, o, d);
  }
}
