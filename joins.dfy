/**
  The two row sets the report's queries aggregate over:
  - `orders JOIN order_line` (on `order_line.order_id = orders.id_`),
    filtered to one creation date;
  - `orders JOIN vendor_commissions` (on `vendor_id`, the foreign key of
    `orders`) `JOIN order_line`, filtered to one creation date and to
    commission rows dated on the order's own date.
  Inner joins produce one row per matching pair (or triple), as SQL does.
*/
module Joins {
  import opened Store
  import opened Relational

  /** One row of `orders JOIN order_line`. */
  datatype LineRow = LineRow(order: Order, line: OrderLine)

  /** One row of `orders JOIN vendor_commissions JOIN order_line`. */
  datatype CommissionRow = CommissionRow(order: Order, commission: Commission, line: OrderLine)

  // ------------------------------------------------- orders JOIN order_line

  /** The joined rows of one order: one per line whose `orderId` is the order's id. */
  function LinesOf(o: Order, lines: seq<OrderLine>): seq<LineRow>
  {
    if lines == [] then []
    else (if lines[0].orderId == o.id then [LineRow(o, lines[0])] else []) + LinesOf(o, lines[1..])
  }

  /** `orders JOIN order_line`. */
  function JoinLines(orders: seq<Order>, lines: seq<OrderLine>): seq<LineRow>
  {
    if orders == [] then [] else LinesOf(orders[0], lines) + JoinLines(orders[1..], lines)
  }

  /** The `Order.created_at` column of a joined row. */
  function RowDate(r: LineRow): Date { r.order.createdAt }

  /** The `Order.id_` column of a joined row. */
  function RowOrderId(r: LineRow): int { r.order.id }

  /** `orders JOIN order_line WHERE orders.created_at = d`. */
  function LineRows(s: Store, d: Date): seq<LineRow>
  {
    Where(JoinLines(s.orders, s.lines), RowDate, d)
  }

  // ------------------------- orders JOIN vendor_commissions JOIN order_line

  /** One row of `orders JOIN vendor_commissions`. */
  datatype VendorRow = VendorRow(order: Order, commission: Commission)

  /** The rows of one order in `orders JOIN vendor_commissions`: one per commission row of its vendor. */
  function CommissionsOf(o: Order, commissions: seq<Commission>): seq<VendorRow>
  {
    if commissions == [] then []
    else
      (if commissions[0].vendorId == o.vendorId then [VendorRow(o, commissions[0])] else [])
      + CommissionsOf(o, commissions[1..])
  }

  /** `orders JOIN vendor_commissions` (on the order's `vendor_id`). */
  function JoinVendors(orders: seq<Order>, commissions: seq<Commission>): seq<VendorRow>
  {
    if orders == [] then [] else CommissionsOf(orders[0], commissions) + JoinVendors(orders[1..], commissions)
  }

  /** The triples of one (order, commission row) pair: one per line of the order. */
  function LinesFor(v: VendorRow, lines: seq<OrderLine>): seq<CommissionRow>
  {
    if lines == [] then []
    else
      (if lines[0].orderId == v.order.id then [CommissionRow(v.order, v.commission, lines[0])] else [])
      + LinesFor(v, lines[1..])
  }

  /** `... JOIN order_line`, applied to the rows of `orders JOIN vendor_commissions`. */
  function JoinVendorLines(pairs: seq<VendorRow>, lines: seq<OrderLine>): seq<CommissionRow>
  {
    if pairs == [] then [] else LinesFor(pairs[0], lines) + JoinVendorLines(pairs[1..], lines)
  }

  /** `orders JOIN vendor_commissions JOIN order_line`. */
  function JoinCommissions(orders: seq<Order>, commissions: seq<Commission>, lines: seq<OrderLine>): seq<CommissionRow>
  {
    JoinVendorLines(JoinVendors(orders, commissions), lines)
  }

  /** The `Order.created_at` column of a triple. */
  function TripleDate(r: CommissionRow): Date { r.order.createdAt }

  /** The `Order.id_` column of a triple. */
  function TripleOrderId(r: CommissionRow): int { r.order.id }

  /** The condition `vendor_commissions.date = orders.created_at`, as a boolean column. */
  function RateOnOrderDay(r: CommissionRow): bool { r.commission.date == r.order.createdAt }

  /**
    `orders JOIN vendor_commissions JOIN order_line WHERE orders.created_at = d
    AND vendor_commissions.date = orders.created_at`.
  */
  function CommissionRows(s: Store, d: Date): seq<CommissionRow>
  {
    Where(Where(JoinCommissions(s.orders, s.commissions, s.lines), TripleDate, d), RateOnOrderDay, true)
  }

  // ------------------------------------------------------ multiplicity lemmas

  /** Arithmetic step of the counting lemmas, kept apart from their larger contexts. */
  lemma MulSucc(a: int, b: int)
    ensures (a + 1) * b == a * b + b
  {
  }

  /** A product of counts is positive exactly when both counts are. */
  lemma MulPositive(a: nat, b: nat)
    ensures a * b > 0 <==> a > 0 && b > 0
  {
    if a > 0 && b > 0 {
      assert a * b >= b;
    }
  }

  lemma {:induction false} LinesOfCount(o: Order, lines: seq<OrderLine>, r: LineRow)
    ensures multiset(LinesOf(o, lines))[r] ==
      if r.order == o && r.line.orderId == o.id then multiset(lines)[r.line] else 0
  {
    if lines != [] {
      LinesOfCount(o, lines[1..], r);
      assert lines == [lines[0]] + lines[1..];
    }
  }

  lemma {:induction false} JoinLinesCount(orders: seq<Order>, lines: seq<OrderLine>, r: LineRow)
    ensures multiset(JoinLines(orders, lines))[r] ==
      if r.line.orderId == r.order.id then multiset(orders)[r.order] * multiset(lines)[r.line] else 0
  {
    if orders != [] {
      var rest := orders[1..];
      LinesOfCount(orders[0], lines, r);
      JoinLinesCount(rest, lines, r);
      HeadCount(orders, r.order);
      assert multiset(JoinLines(orders, lines))[r]
          == multiset(LinesOf(orders[0], lines))[r] + multiset(JoinLines(rest, lines))[r];
      MulSucc(multiset(rest)[r.order], multiset(lines)[r.line]);
    }
  }

  /**
    The joined rows of a date, counted with multiplicity: an (order, line)
    pair occurs once for each copy of the order and each copy of the line,
    exactly when the order was created on the date and the line belongs to it.
  */
  lemma {:induction false} LineRowsCount(s: Store, d: Date, r: LineRow)
    ensures multiset(LineRows(s, d))[r] ==
      if r.order.createdAt == d && r.line.orderId == r.order.id
      then multiset(s.orders)[r.order] * multiset(s.lines)[r.line]
      else 0
  {
    WhereCount(JoinLines(s.orders, s.lines), RowDate, d, r);
    JoinLinesCount(s.orders, s.lines, r);
  }

  /** Which rows the inner join keeps: an order of the date paired with one of its own lines. */
  lemma {:induction false} LineRowsMembers(s: Store, d: Date)
    ensures forall r :: r in LineRows(s, d) <==>
      r.order in s.orders && r.line in s.lines && r.order.createdAt == d && r.line.orderId == r.order.id
  {
    forall r
      ensures r in LineRows(s, d) <==>
        r.order in s.orders && r.line in s.lines && r.order.createdAt == d && r.line.orderId == r.order.id
    {
      LineRowsCount(s, d, r);
      MulPositive(multiset(s.orders)[r.order], multiset(s.lines)[r.line]);
    }
  }

  lemma {:induction false} CommissionsOfCount(o: Order, commissions: seq<Commission>, v: VendorRow)
    ensures multiset(CommissionsOf(o, commissions))[v] ==
      if v.order == o && v.commission.vendorId == o.vendorId then multiset(commissions)[v.commission] else 0
  {
    if commissions != [] {
      CommissionsOfCount(o, commissions[1..], v);
      assert commissions == [commissions[0]] + commissions[1..];
    }
  }

  lemma {:induction false} JoinVendorsCount(orders: seq<Order>, commissions: seq<Commission>, v: VendorRow)
    ensures multiset(JoinVendors(orders, commissions))[v] ==
      if v.commission.vendorId == v.order.vendorId
      then multiset(orders)[v.order] * multiset(commissions)[v.commission]
      else 0
  {
    if orders != [] {
      var rest := orders[1..];
      CommissionsOfCount(orders[0], commissions, v);
      JoinVendorsCount(rest, commissions, v);
      HeadCount(orders, v.order);
      assert multiset(JoinVendors(orders, commissions))[v]
          == multiset(CommissionsOf(orders[0], commissions))[v] + multiset(JoinVendors(rest, commissions))[v];
      MulSucc(multiset(rest)[v.order], multiset(commissions)[v.commission]);
    }
  }

  lemma {:induction false} LinesForCount(v: VendorRow, lines: seq<OrderLine>, r: CommissionRow)
    ensures multiset(LinesFor(v, lines))[r] ==
      if r.order == v.order && r.commission == v.commission && r.line.orderId == v.order.id
      then multiset(lines)[r.line]
      else 0
  {
    if lines != [] {
      LinesForCount(v, lines[1..], r);
      assert lines == [lines[0]] + lines[1..];
    }
  }

  lemma {:induction false} JoinVendorLinesCount(pairs: seq<VendorRow>, lines: seq<OrderLine>, r: CommissionRow)
    ensures multiset(JoinVendorLines(pairs, lines))[r] ==
      if r.line.orderId == r.order.id
      then multiset(pairs)[VendorRow(r.order, r.commission)] * multiset(lines)[r.line]
      else 0
  {
    if pairs != [] {
      var rest := pairs[1..];
      var v := VendorRow(r.order, r.commission);
      LinesForCount(pairs[0], lines, r);
      JoinVendorLinesCount(rest, lines, r);
      HeadCount(pairs, v);
      assert multiset(JoinVendorLines(pairs, lines))[r]
          == multiset(LinesFor(pairs[0], lines))[r] + multiset(JoinVendorLines(rest, lines))[r];
      MulSucc(multiset(rest)[v], multiset(lines)[r.line]);
    }
  }

  /**
    The triples of the three-way join, counted with multiplicity: one for each
    copy of the order, of the commission row and of the line, exactly when the
    commission row is the order's vendor's and the line belongs to the order.
  */
  lemma {:induction false} JoinCommissionsCount(orders: seq<Order>, commissions: seq<Commission>, lines: seq<OrderLine>, r: CommissionRow)
    ensures multiset(JoinCommissions(orders, commissions, lines))[r] ==
      if r.commission.vendorId == r.order.vendorId && r.line.orderId == r.order.id
      then (multiset(orders)[r.order] * multiset(commissions)[r.commission]) * multiset(lines)[r.line]
      else 0
  {
    JoinVendorLinesCount(JoinVendors(orders, commissions), lines, r);
    JoinVendorsCount(orders, commissions, VendorRow(r.order, r.commission));
  }

  /** Which triples the three-way join holds: an order, a commission row of its vendor and a line of the order. */
  lemma {:induction false} JoinCommissionsMembers(orders: seq<Order>, commissions: seq<Commission>, lines: seq<OrderLine>)
    ensures forall r :: r in JoinCommissions(orders, commissions, lines) <==>
      r.order in orders && r.commission in commissions && r.line in lines
      && r.commission.vendorId == r.order.vendorId && r.line.orderId == r.order.id
  {
    forall r
      ensures r in JoinCommissions(orders, commissions, lines) <==>
        r.order in orders && r.commission in commissions && r.line in lines
        && r.commission.vendorId == r.order.vendorId && r.line.orderId == r.order.id
    {
      JoinCommissionsCount(orders, commissions, lines, r);
      MulPositive(multiset(orders)[r.order], multiset(commissions)[r.commission]);
      MulPositive(multiset(orders)[r.order] * multiset(commissions)[r.commission], multiset(lines)[r.line]);
    }
  }

  /**
    The commission triples of a date, counted with multiplicity: an (order,
    commission row, line) triple occurs once for each copy of each of the
    three, exactly when the order was created on the date, the commission row
    is its vendor's and dated on that same date, and the line belongs to the order.
  */
  lemma {:induction false} CommissionRowsCount(s: Store, d: Date, r: CommissionRow)
    ensures multiset(CommissionRows(s, d))[r] ==
      if r.order.createdAt == d && r.commission.vendorId == r.order.vendorId
         && r.commission.date == d && r.line.orderId == r.order.id
      then (multiset(s.orders)[r.order] * multiset(s.commissions)[r.commission]) * multiset(s.lines)[r.line]
      else 0
  {
    var joined := JoinCommissions(s.orders, s.commissions, s.lines);
    WhereCount(Where(joined, TripleDate, d), RateOnOrderDay, true, r);
    WhereCount(joined, TripleDate, d, r);
    JoinCommissionsCount(s.orders, s.commissions, s.lines, r);
  }

  /** Which triples the inner joins keep. */
  lemma {:induction false} CommissionRowsMembers(s: Store, d: Date)
    ensures forall r :: r in CommissionRows(s, d) <==>
      r.order in s.orders && r.commission in s.commissions && r.line in s.lines
      && r.order.createdAt == d && r.commission.vendorId == r.order.vendorId
      && r.commission.date == d && r.line.orderId == r.order.id
  {
    JoinCommissionsMembers(s.orders, s.commissions, s.lines);
  }

  // ------------------------------------------------------ derived properties

  /** Every commission triple of a date carries a joined (order, line) row of that date. */
  lemma {:induction false} CommissionRowsHaveLineRows(s: Store, d: Date)
    ensures forall r :: r in CommissionRows(s, d) ==> LineRow(r.order, r.line) in LineRows(s, d)
    ensures CommissionRows(s, d) != [] ==> LineRows(s, d) != []
  {
    CommissionRowsMembers(s, d);
    LineRowsMembers(s, d);
    if CommissionRows(s, d) != [] {
      var r := CommissionRows(s, d)[0];
      assert LineRow(r.order, r.line) in LineRows(s, d);
    }
  }

  /**
    The inner join of a date is empty exactly when no order of that date has a
    line: orders without lines vanish from it.
  */
  lemma {:induction false} LineRowsNonEmpty(s: Store, d: Date)
    ensures LineRows(s, d) != [] <==>
      exists o, l :: o in s.orders && l in s.lines && o.createdAt == d && l.orderId == o.id
  {
    LineRowsMembers(s, d);
    if LineRows(s, d) != [] {
      var r := LineRows(s, d)[0];
      assert r in LineRows(s, d);
      assert r.order in s.orders && r.line in s.lines;
    } else {
      forall o, l | o in s.orders && l in s.lines && o.createdAt == d
        ensures l.orderId != o.id
      {
        assert LineRow(o, l) !in LineRows(s, d);
      }
    }
  }

  /** A date on which no order was created has no joined rows of either kind. */
  lemma {:induction false} NoOrdersNoRows(s: Store, d: Date)
    requires forall o :: o in s.orders ==> o.createdAt != d
    ensures LineRows(s, d) == [] && CommissionRows(s, d) == []
  {
    LineRowsNonEmpty(s, d);
    CommissionRowsHaveLineRows(s, d);
  }

  /** Every row of a date's line join shares that one date: GROUP BY created_at makes a single group. */
  lemma {:induction false} SingleDateGroup(s: Store, d: Date)
    ensures LineRows(s, d) != [] ==> Distinct(LineRows(s, d), RowDate) == [d]
    ensures Where(LineRows(s, d), RowDate, d) == LineRows(s, d)
  {
    var rows := LineRows(s, d);
    WhereAll(rows, RowDate, d);
    if rows != [] {
      var ks := Distinct(rows, RowDate);
      assert RowDate(rows[0]) in ks;
      assert forall i :: 0 <= i < |ks| ==> ks[i] == d by {
        forall i | 0 <= i < |ks| ensures ks[i] == d {
          assert ks[i] in ks;
        }
      }
      NoDupCard(ks);
      assert (set k | k in ks) == {d};
      assert ks == [d];
    }
  }

  lemma {:induction false} JoinVendorsAppend(a: seq<Order>, b: seq<Order>, commissions: seq<Commission>)
    ensures JoinVendors(a + b, commissions) == JoinVendors(a, commissions) + JoinVendors(b, commissions)
  {
    if a == [] {
      assert a + b == b;
    } else {
      JoinVendorsAppend(a[1..], b, commissions);
      assert (a + b)[1..] == a[1..] + b;
    }
  }

  lemma {:induction false} JoinVendorLinesAppend(a: seq<VendorRow>, b: seq<VendorRow>, lines: seq<OrderLine>)
    ensures JoinVendorLines(a + b, lines) == JoinVendorLines(a, lines) + JoinVendorLines(b, lines)
  {
    if a == [] {
      assert a + b == b;
    } else {
      JoinVendorLinesAppend(a[1..], b, lines);
      assert (a + b)[1..] == a[1..] + b;
    }
  }

  /** The three-way join distributes over concatenation of the orders table. */
  lemma {:induction false} JoinCommissionsAppend(a: seq<Order>, b: seq<Order>, commissions: seq<Commission>, lines: seq<OrderLine>)
    ensures JoinCommissions(a + b, commissions, lines)
         == JoinCommissions(a, commissions, lines) + JoinCommissions(b, commissions, lines)
  {
    JoinVendorsAppend(a, b, commissions);
    JoinVendorLinesAppend(JoinVendors(a, commissions), JoinVendors(b, commissions), lines);
  }

  /**
    An order whose vendor has no commission row dated on the order's own date
    adds no triple: the commission join is unchanged by it.
  */
  lemma {:induction false} UnmatchedOrderAddsNoTriple(s: Store, o: Order, d: Date)
    requires forall c :: c in s.commissions ==> !(c.vendorId == o.vendorId && c.date == o.createdAt)
    ensures CommissionRows(Store(s.orders + [o], s.lines, s.commissions), d) == CommissionRows(s, d)
  {
    var own := JoinCommissions([o], s.commissions, s.lines);
    JoinCommissionsAppend(s.orders, [o], s.commissions, s.lines);
    var base := JoinCommissions(s.orders, s.commissions, s.lines);
    WhereAppend(base, own, TripleDate, d);
    WhereAppend(Where(base, TripleDate, d), Where(own, TripleDate, d), RateOnOrderDay, true);
    JoinCommissionsMembers([o], s.commissions, s.lines);
    WhereNone(Where(own, TripleDate, d), RateOnOrderDay, true);
    assert Where(Where(base, TripleDate, d), RateOnOrderDay, true) + [] == CommissionRows(s, d);
  }
}
