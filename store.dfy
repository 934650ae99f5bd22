/**
  The records the report reads: the columns of the `orders`, `order_line` and
  `vendor_commissions` tables that the aggregator touches. Money and rates,
  `Float` columns in the database, are exact reals here.
*/
module Store {

  /** A calendar date (year-month-day, no time component); only compared for equality. */
  datatype Date = Date(year: int, month: int, day: int)

  /** A row of `orders`. */
  datatype Order = Order(id: int, createdAt: Date, vendorId: int, customerId: int)

  /** A row of `order_line`; `orderId` refers to `Order.id`. */
  datatype OrderLine = OrderLine(
    orderId: int,
    discountRate: real,
    quantity: int,
    fullPriceAmount: real,
    discountedAmount: real,
    totalAmount: real)

  /** A row of `vendor_commissions`: the rate a vendor pays on one date. */
  datatype Commission = Commission(vendorId: int, date: Date, rate: real)

  /** The store's current contents: three tables, each a sequence of rows. */
  datatype Store = Store(orders: seq<Order>, lines: seq<OrderLine>, commissions: seq<Commission>)
}
