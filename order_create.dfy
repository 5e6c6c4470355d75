/** Order creation on the backend (backend/orders/serializers.py:59-97):
    the total of the submitted lines, then one order row, one item row per
    line and one pending payment row. The three tables are sequences that
    grow by appending; row ids are allocated from a counter. Prices are
    integer cents. */
module OrderCreate {
  import opened Common

  /** The address fields an order stores. */
  datatype ShippingFields = ShippingFields(
    firstName: string, lastName: string, email: string, address: string, city: string,
    state: string, postalCode: string, country: string, phone: string)

  /** One validated input line: the product (its id and its price at the
      time of the request), an optional variant id, the quantity and the
      optional color and size. */
  datatype ItemInput = ItemInput(
    productId: int, productPrice: int, variant: Option<int>, quantity: int,
    color: Option<string>, size: Option<string>)

  datatype OrderRow = OrderRow(id: int, userId: int, shipping: ShippingFields, totalPrice: int)

  datatype OrderItemRow = OrderItemRow(
    orderId: int, productId: int, variant: Option<int>, price: int, quantity: int,
    color: string, size: string)

  datatype PaymentRow = PaymentRow(orderId: int, paymentMethod: string, amount: int, status: string)

  /** Sum of product price * quantity over the lines, accumulated left to
      right. */
  function Total(items: seq<ItemInput>): int
  {
    if items == [] then 0
    else Total(items[..|items| - 1]) + items[|items| - 1].productPrice * items[|items| - 1].quantity
  }

  /** The item row created for one input line: the price is copied from the
      product, a missing color or size becomes "". */
  function ItemRowOf(orderId: int, item: ItemInput): OrderItemRow
  {
    OrderItemRow(orderId, item.productId, item.variant, item.productPrice, item.quantity,
                 OrEmpty(item.color), OrEmpty(item.size))
  }

  /** Sum of price * quantity over stored item rows. */
  function RowsTotal(rows: seq<OrderItemRow>): int
  {
    if rows == [] then 0 else RowsTotal(rows[..|rows| - 1]) + rows[|rows| - 1].price * rows[|rows| - 1].quantity
  }

  lemma {:induction false} TotalConcat(a: seq<ItemInput>, b: seq<ItemInput>)
    ensures Total(a + b) == Total(a) + Total(b)
    decreases |b|
  {
    if b == [] {
      assert a + b == a;
    } else {
      assert (a + b)[..|a + b| - 1] == a + b[..|b| - 1];
      TotalConcat(a, b[..|b| - 1]);
    }
  }

  /** The item rows written for an order add up to the order's total:
      each row carries the product price the total was computed from. */
  lemma {:induction false} RowsAddUpToTotal(orderId: int, items: seq<ItemInput>)
    ensures RowsTotal(seq(|items|, j requires 0 <= j < |items| => ItemRowOf(orderId, items[j]))) == Total(items)
    decreases |items|
  {
    if items != [] {
      var rows := seq(|items|, j requires 0 <= j < |items| => ItemRowOf(orderId, items[j]));
      var init := items[..|items| - 1];
      RowsAddUpToTotal(orderId, init);
      assert rows[..|rows| - 1] == seq(|init|, j requires 0 <= j < |init| => ItemRowOf(orderId, init[j]));
    }
  }

  /** Every line with a non-negative price and quantity adds nothing
      negative, so such an order never totals below zero. */
  lemma {:induction false} TotalNonNegative(items: seq<ItemInput>)
    requires forall j :: 0 <= j < |items| ==> items[j].productPrice >= 0 && items[j].quantity >= 0
    ensures Total(items) >= 0
    decreases |items|
  {
    if items != [] {
      TotalNonNegative(items[..|items| - 1]);
    }
  }

  /** The first loop of `create`. */
  method ComputeTotal(items: seq<ItemInput>) returns (total: int)
    ensures total == Total(items)
    ensures items == [] ==> total == 0
  {
    total := 0;
    var i := 0;
    while i < |items|
      invariant 0 <= i <= |items|
      invariant total == Total(items[..i])
    {
      assert items[..i + 1][..i] == items[..i];
      total := total + items[i].productPrice * items[i].quantity;
      i := i + 1;
    }
    assert items[..|items|] == items;
  }

  /** The order, order item and payment tables. */
  class OrderDb {
    var orders: seq<OrderRow>
    var orderItems: seq<OrderItemRow>
    var payments: seq<PaymentRow>
    var nextOrderId: int

    constructor ()
      ensures orders == [] && orderItems == [] && payments == [] && nextOrderId == 1
    {
      orders := [];
      orderItems := [];
      payments := [];
      nextOrderId := 1;
    }

    /** `OrderCreateSerializer.create` for the requesting user. */
    method Create(userId: int, shipping: ShippingFields, items: seq<ItemInput>, paymentMethod: string)
      returns (orderId: int)
      modifies this
      ensures orderId == old(nextOrderId) && nextOrderId == old(nextOrderId) + 1
      ensures orders == old(orders) + [OrderRow(orderId, userId, shipping, Total(items))]
      ensures |orderItems| == |old(orderItems)| + |items|
      ensures orderItems[..|old(orderItems)|] == old(orderItems)
      ensures orderItems[|old(orderItems)|..] ==
                seq(|items|, j requires 0 <= j < |items| => ItemRowOf(orderId, items[j]))
      ensures payments == old(payments) + [PaymentRow(orderId, paymentMethod, Total(items), "pending")]
    {
      var total := ComputeTotal(items);
      orderId := nextOrderId;
      nextOrderId := nextOrderId + 1;
      orders := orders + [OrderRow(orderId, userId, shipping, total)];
      var i := 0;
      while i < |items|
        invariant 0 <= i <= |items|
        invariant |orderItems| == |old(orderItems)| + i
        invariant orderItems[..|old(orderItems)|] == old(orderItems)
        invariant forall j :: 0 <= j < i ==> orderItems[|old(orderItems)| + j] == ItemRowOf(orderId, items[j])
        invariant orders == old(orders) + [OrderRow(orderId, userId, shipping, total)]
        invariant payments == old(payments) && nextOrderId == old(nextOrderId) + 1
      {
        var item := items[i];
        orderItems := orderItems + [OrderItemRow(orderId, item.productId, item.variant, item.productPrice,
                                                 item.quantity, OrEmpty(item.color), OrEmpty(item.size))];
        i := i + 1;
      }
      payments := payments + [PaymentRow(orderId, paymentMethod, total, "pending")];
    }
  }

  /** What one `create` adds, read back from the tables: one order owned by
      the user, one item row per line whose prices add up to the order
      total, and one pending payment for that same amount. */
  lemma CreatedOrderIsConsistent(orderId: int, userId: int, shipping: ShippingFields,
                                 items: seq<ItemInput>, paymentMethod: string)
    ensures var order := OrderRow(orderId, userId, shipping, Total(items));
      var rows := seq(|items|, j requires 0 <= j < |items| => ItemRowOf(orderId, items[j]));
      var payment := PaymentRow(orderId, paymentMethod, Total(items), "pending");
      && |rows| == |items|
      && RowsTotal(rows) == order.totalPrice
      && payment.amount == order.totalPrice
      && (forall j :: 0 <= j < |rows| ==> rows[j].orderId == order.id && rows[j].price == items[j].productPrice)
  {
    RowsAddUpToTotal(orderId, items);
  }
}
