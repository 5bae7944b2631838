/** Order rules: placing an order reserves stock item by item and prices
    it; fulfilment and payment move the order through its statuses;
    cancelling returns the stock. Each call runs in one transaction: a call
    that throws leaves the database as it was, which is why `createOrder`
    works on a copy of the product table and writes it back at the end. */
module OrderService {
  import opened Common
  import opened Entities
  import opened Database

  datatype OrderItemRequest = OrderItemRequest(productId: int, quantity: Int32, notes: Option<string>)

  /** A null item list is the empty sequence: both are refused alike. */
  datatype CreateOrderRequest = CreateOrderRequest(
    userId: int,
    items: seq<OrderItemRequest>,
    paymentMethod: Option<PaymentMethod>,
    shippingFee: Option<Money>,
    taxAmount: Option<Money>,
    discountAmount: Option<Money>,
    shipping: ShippingAddress,
    notes: Option<string>)

  datatype UpdateOrderStatusRequest = UpdateOrderStatusRequest(
    status: OrderStatus,
    shippingProvider: Option<string>,
    trackingNumber: Option<string>,
    notes: Option<string>)

  datatype UpdatePaymentStatusRequest = UpdatePaymentStatusRequest(
    paymentStatus: PaymentStatus,
    paymentReference: Option<string>,
    paidAt: Option<Timestamp>)

  datatype CancelOrderRequest = CancelOrderRequest(userId: int, reason: Option<string>)

  /** What the item loop of `createOrder` has built so far: the product
      table with stock taken, the order lines and their running subtotal. */
  datatype Reservation = Reservation(products: map<int, Product>, lines: seq<OrderItem>, subtotal: Money)

  // ---------------------------------------------------------------------
  // Pricing
  // ---------------------------------------------------------------------

  /** `defaultIfNull`: a missing amount is zero. */
  function DefaultIfNull(value: Option<Money>): (r: Money)
    ensures value.Some? ==> r == value.value
    ensures value.None? ==> r == 0
  {
    if value.Some? then value.value else 0
  }

  /** `clampDiscount`: a discount never exceeds the subtotal. */
  function ClampDiscount(discount: Money, subtotal: Money): (r: Money)
    ensures r <= discount && r <= subtotal
    ensures r == discount || r == subtotal
  {
    if discount > subtotal then subtotal else discount
  }

  /** The order total: never negative. */
  function TotalAmount(subtotal: Money, shippingFee: Money, taxAmount: Money, discount: Money): (r: Money)
    ensures r >= 0
    ensures r >= subtotal + shippingFee + taxAmount - discount
    ensures r == 0 || r == subtotal + shippingFee + taxAmount - discount
  {
    var total := subtotal + shippingFee + taxAmount - discount;
    if total < 0 then 0 else total
  }

  // ---------------------------------------------------------------------
  // Reserving stock
  // ---------------------------------------------------------------------

  /** The order line `createOrder` records for an item: a snapshot of the
      product. */
  function OrderLine(p: Product, item: OrderItemRequest): OrderItem
  {
    OrderItem(
      productId := item.productId,
      merchantId := p.merchantId,
      productName := p.name,
      productSku := p.sku,
      unitPrice := p.price,
      quantity := item.quantity,
      totalPrice := p.price * item.quantity as int,
      status := OrderItemStatus.Pending,
      notes := item.notes)
  }

  /** A line that records `item`, priced at its own unit price. */
  predicate LineFor(line: OrderItem, item: OrderItemRequest)
  {
    && line.productId == item.productId
    && line.quantity == item.quantity
    && line.notes == item.notes
    && line.totalPrice == line.unitPrice * line.quantity as int
    && line.status == OrderItemStatus.Pending
  }

  /** A product after `q` of it were sold: stock down and sales up in Java
      `int` arithmetic, and out of stock when nothing is left, whatever the
      status was. */
  function Sold(p: Product, q: Int32): Product
  {
    var stock := Wrap32(p.stock as int - q as int);
    p.(stock := stock,
       salesCount := Wrap32(p.salesCount as int + q as int),
       status := if stock == 0 then OutOfStock else p.status)
  }

  /** One pass of the item loop: the product must exist, be enabled and
      not inactive, and have the quantity in stock. */
  function Reserve(res: Reservation, item: OrderItemRequest): Result<Reservation>
  {
    if item.productId !in res.products then Err(ProductNotFound)
    else
      var p := res.products[item.productId];
      if !p.enabled || p.status == Inactive then Err(OrderCreation)
      else if p.stock < item.quantity then Err(InsufficientStock)
      else Ok(Reservation(
        res.products[item.productId := Sold(p, item.quantity)],
        res.lines + [OrderLine(p, item)],
        res.subtotal + p.price * item.quantity as int))
  }

  /** The item loop of `createOrder` over `items`, from the stored product
      table: each item sees the stock taken by the items before it, and the
      first failing item decides the error. */
  function ReserveAll(products: map<int, Product>, items: seq<OrderItemRequest>): (r: Result<Reservation>)
    ensures r.Ok? ==> r.value.products.Keys == products.Keys
  {
    if |items| == 0 then Ok(Reservation(products, [], 0))
    else
      var before := ReserveAll(products, items[..|items| - 1]);
      if before.Err? then before else Reserve(before.value, items[|items| - 1])
  }

  /** The sum of the lines' total prices. */
  function SumTotals(lines: seq<OrderItem>): Money
  {
    if |lines| == 0 then 0
    else SumTotals(lines[..|lines| - 1]) + lines[|lines| - 1].totalPrice
  }

  /** The quantity of product `id` over the lines. */
  function LineQty(lines: seq<OrderItem>, id: int): int
  {
    if |lines| == 0 then 0
    else LineQty(lines[..|lines| - 1], id) + (if lines[|lines| - 1].productId == id then lines[|lines| - 1].quantity as int else 0)
  }

  /** The quantity of product `id` over the requested items. */
  function Taken(items: seq<OrderItemRequest>, id: int): int
  {
    if |items| == 0 then 0
    else Taken(items[..|items| - 1], id) + (if items[|items| - 1].productId == id then items[|items| - 1].quantity as int else 0)
  }

  /** The order `createOrder` stores. */
  function NewOrder(request: CreateOrderRequest, res: Reservation, orderNumber: string, now: Timestamp): Order
  {
    var shippingFee := DefaultIfNull(request.shippingFee);
    var taxAmount := DefaultIfNull(request.taxAmount);
    var discount := ClampDiscount(DefaultIfNull(request.discountAmount), res.subtotal);
    Order(
      orderNumber := orderNumber,
      customerId := request.userId,
      status := PendingPayment,
      paymentStatus := PaymentStatus.Pending,
      paymentMethod := request.paymentMethod,
      subtotal := res.subtotal,
      shippingFee := shippingFee,
      taxAmount := taxAmount,
      discountAmount := discount,
      totalAmount := TotalAmount(res.subtotal, shippingFee, taxAmount, discount),
      shipping := request.shipping,
      shippingProvider := None,
      trackingNumber := None,
      paymentReference := None,
      notes := request.notes,
      cancellationReason := None,
      items := res.lines,
      orderDate := now,
      paymentDate := None,
      shippedDate := None,
      deliveredDate := None,
      cancelledDate := None)
  }

  // ---------------------------------------------------------------------
  // Status changes and cancellation
  // ---------------------------------------------------------------------

  /** The order `updateOrderStatus` stores: the new status with its date,
      and provider, tracking number and notes overwritten, null or not. */
  function Advanced(o: Order, request: UpdateOrderStatusRequest, now: Timestamp): Order
  {
    var s := request.status;
    o.(status := s,
       shippedDate := if s == OrderStatus.Shipped then Some(now) else o.shippedDate,
       deliveredDate :=
         if s != OrderStatus.Shipped && (s == OrderStatus.Delivered || s == Completed) then Some(now)
         else o.deliveredDate,
       shippingProvider := request.shippingProvider,
       trackingNumber := request.trackingNumber,
       notes := request.notes)
  }

  /** The order `updatePaymentStatus` stores. */
  function PaymentApplied(o: Order, request: UpdatePaymentStatusRequest, now: Timestamp): Order
  {
    var paid := o.(paymentStatus := request.paymentStatus, paymentReference := request.paymentReference);
    match request.paymentStatus
    case Paid =>
      paid.(status := OrderStatus.Processing,
            paymentDate := Some(if request.paidAt.Some? then request.paidAt.value else now))
    case Refunded => paid.(status := OrderStatus.Refunded)
    case Failed => paid.(status := PendingPayment)
    case _ => paid
  }

  /** The order `cancelOrder` stores. */
  function CancelledOrder(o: Order, reason: Option<string>, now: Timestamp): Order
  {
    o.(status := OrderStatus.Cancelled, paymentStatus := Failed,
       cancellationReason := reason, cancelledDate := Some(now))
  }

  /** A product when `q` of it come back: stock up in Java `int`
      arithmetic; an out-of-stock product with stock again is active. */
  function Returned(p: Product, q: Int32): Product
  {
    var stock := Wrap32(p.stock as int + q as int);
    p.(stock := stock, status := if stock > 0 && p.status == OutOfStock then Active else p.status)
  }

  /** The restocking loop of `cancelOrder` over the order's lines. A line
      whose product is gone is passed over (the database's foreign key
      keeps that from happening). */
  function RestockAll(products: map<int, Product>, lines: seq<OrderItem>): (r: map<int, Product>)
    ensures r.Keys == products.Keys
  {
    if |lines| == 0 then products
    else
      var ps := RestockAll(products, lines[..|lines| - 1]);
      var line := lines[|lines| - 1];
      if line.productId in ps then ps[line.productId := Returned(ps[line.productId], line.quantity)] else ps
  }

  /** The order may be cancelled by this user: only its customer, and not
      once it is on its way or done. A cancelled order cannot be cancelled
      again. */
  predicate Cancellable(o: Order, userId: int)
  {
    o.customerId == userId
    && o.status !in {OrderStatus.Shipped, OrderStatus.Delivered, Completed, OrderStatus.Cancelled}
  }

  /** The check as the source writes it: a cancelled order passes. */
  predicate CancellableAsWritten(o: Order, userId: int)
  {
    o.customerId == userId && o.status !in {OrderStatus.Shipped, OrderStatus.Delivered, Completed}
  }

  // ---------------------------------------------------------------------
  // Service methods
  // ---------------------------------------------------------------------

  /** One pass of the item loop of `createOrder`. */
  method ReserveItem(products: map<int, Product>, lines: seq<OrderItem>, subtotal: Money, item: OrderItemRequest)
    returns (r: Result<Reservation>)
    ensures r == Reserve(Reservation(products, lines, subtotal), item)
  {
    if item.productId !in products {
      return Err(ProductNotFound);
    }
    var product := products[item.productId];
    if !product.enabled || product.status == Inactive {
      return Err(OrderCreation);
    }
    if product.stock < item.quantity {
      return Err(InsufficientStock);
    }
    var totalPrice := product.price * item.quantity as int;
    var line := OrderLine(product, item);
    product := product.(stock := Wrap32(product.stock as int - item.quantity as int));
    product := product.(salesCount := Wrap32(product.salesCount as int + item.quantity as int));
    if product.stock == 0 {
      product := product.(status := OutOfStock);
    }
    r := Ok(Reservation(products[item.productId := product], lines + [line], subtotal + totalPrice));
  }

  /** `createOrder`: the order number and the clock are given. */
  method CreateOrder(db: Db, request: CreateOrderRequest, orderNumber: string, now: Timestamp)
    returns (r: Result<int>)
    requires db.Valid()
    modifies db
    ensures db.Valid()
    ensures |request.items| == 0 ==> r == Err(OrderCreation) && unchanged(db)
    ensures |request.items| > 0 && request.userId !in old(db.users) ==> r == Err(UserNotFound) && unchanged(db)
    ensures |request.items| > 0 && request.userId in old(db.users)
            && ReserveAll(old(db.products), request.items).Err? ==>
              r == Err(ReserveAll(old(db.products), request.items).error) && unchanged(db)
    ensures |request.items| > 0 && request.userId in old(db.users)
            && ReserveAll(old(db.products), request.items).Ok? ==>
              var res := ReserveAll(old(db.products), request.items).value;
              && r.Ok? && r.value !in old(db.orders)
              && db.orders == old(db.orders)[r.value := NewOrder(request, res, orderNumber, now)]
              && db.products == res.products
              && db.users == old(db.users)
  {
    if |request.items| == 0 {
      return Err(OrderCreation);
    }
    if request.userId !in db.users {
      return Err(UserNotFound);
    }
    var products := db.products;
    var lines: seq<OrderItem> := [];
    var subtotal: Money := 0;
    var i := 0;
    while i < |request.items|
      invariant 0 <= i <= |request.items|
      invariant unchanged(db)
      invariant ReserveAll(db.products, request.items[..i]) == Ok(Reservation(products, lines, subtotal))
    {
      ReserveAllNext(db.products, request.items, i);
      var step := ReserveItem(products, lines, subtotal, request.items[i]);
      if step.Err? {
        ReserveAllStopsAtError(db.products, request.items, i + 1);
        return Err(step.error);
      }
      products, lines, subtotal := step.value.products, step.value.lines, step.value.subtotal;
      i := i + 1;
    }
    assert request.items[..i] == request.items;
    var id := db.nextOrderId;
    db.products := products;
    db.orders := db.orders[id := NewOrder(request, Reservation(products, lines, subtotal), orderNumber, now)];
    db.nextOrderId := db.nextOrderId + 1;
    r := Ok(id);
  }

  /** `updateOrderStatus`: a cancelled order is final. */
  method UpdateOrderStatus(db: Db, orderId: int, request: UpdateOrderStatusRequest, now: Timestamp)
    returns (r: Result<int>)
    requires db.Valid()
    modifies db
    ensures db.Valid()
    ensures orderId !in old(db.orders) ==> r == Err(OrderNotFound) && unchanged(db)
    ensures orderId in old(db.orders) && old(db.orders)[orderId].status == OrderStatus.Cancelled ==>
              r == Err(OrderStatusConflict) && unchanged(db)
    ensures orderId in old(db.orders) && old(db.orders)[orderId].status != OrderStatus.Cancelled ==>
              && r == Ok(orderId)
              && db.orders == old(db.orders)[orderId := Advanced(old(db.orders)[orderId], request, now)]
              && db.products == old(db.products) && db.users == old(db.users)
  {
    if orderId !in db.orders {
      return Err(OrderNotFound);
    }
    var order := db.orders[orderId];
    if order.status == OrderStatus.Cancelled {
      return Err(OrderStatusConflict);
    }
    order := order.(status := request.status);
    if request.status == OrderStatus.Shipped {
      order := order.(shippedDate := Some(now));
    } else if request.status == OrderStatus.Delivered || request.status == Completed {
      order := order.(deliveredDate := Some(now));
    }
    order := order.(shippingProvider := request.shippingProvider);
    order := order.(trackingNumber := request.trackingNumber);
    order := order.(notes := request.notes);
    db.orders := db.orders[orderId := order];
    r := Ok(orderId);
  }

  /** `updatePaymentStatus`: accepted in every order status. */
  method UpdatePaymentStatus(db: Db, orderId: int, request: UpdatePaymentStatusRequest, now: Timestamp)
    returns (r: Result<int>)
    requires db.Valid()
    modifies db
    ensures db.Valid()
    ensures orderId !in old(db.orders) ==> r == Err(OrderNotFound) && unchanged(db)
    ensures orderId in old(db.orders) ==>
              && r == Ok(orderId)
              && db.orders == old(db.orders)[orderId := PaymentApplied(old(db.orders)[orderId], request, now)]
              && db.products == old(db.products) && db.users == old(db.users)
  {
    if orderId !in db.orders {
      return Err(OrderNotFound);
    }
    var order := db.orders[orderId];
    order := order.(paymentStatus := request.paymentStatus);
    order := order.(paymentReference := request.paymentReference);
    if request.paymentStatus == Paid {
      order := order.(status := OrderStatus.Processing);
      order := order.(paymentDate := Some(if request.paidAt.Some? then request.paidAt.value else now));
    } else if request.paymentStatus == PaymentStatus.Refunded {
      order := order.(status := OrderStatus.Refunded);
    } else if request.paymentStatus == Failed {
      order := order.(status := PendingPayment);
    }
    db.orders := db.orders[orderId := order];
    r := Ok(orderId);
  }

  /** The restocking loop shared by both forms of `cancelOrder`. */
  method ReturnStock(db: Db, lines: seq<OrderItem>)
    requires db.Valid()
    modifies db
    ensures db.Valid()
    ensures db.products == RestockAll(old(db.products), lines)
    ensures db.users == old(db.users) && db.orders == old(db.orders)
    ensures db.nextUserId == old(db.nextUserId) && db.nextProductId == old(db.nextProductId)
    ensures db.nextOrderId == old(db.nextOrderId)
  {
    var i := 0;
    while i < |lines|
      invariant 0 <= i <= |lines|
      invariant db.Valid()
      invariant db.products == RestockAll(old(db.products), lines[..i])
      invariant db.users == old(db.users) && db.orders == old(db.orders)
      invariant db.nextUserId == old(db.nextUserId) && db.nextProductId == old(db.nextProductId)
      invariant db.nextOrderId == old(db.nextOrderId)
    {
      var line := lines[i];
      assert lines[..i + 1][..i] == lines[..i];
      if line.productId in db.products {
        var product := ReturnLine(db.products[line.productId], line.quantity);
        db.products := db.products[line.productId := product];
      }
      i := i + 1;
    }
    assert lines[..i] == lines;
  }

  /** One pass of the restocking loop: the line's quantity goes back on
      the shelf, and a sold-out product that has stock again is sold again. */
  method ReturnLine(product: Product, quantity: Int32) returns (p: Product)
    ensures p == Returned(product, quantity)
  {
    p := product.(stock := Wrap32(product.stock as int + quantity as int));
    if p.stock > 0 && p.status == OutOfStock {
      p := p.(status := Active);
    }
  }

  /** `cancelOrder` with the check it evidently intends: a cancelled order
      is refused like a shipped one, so its stock comes back only once. */
  method CancelOrder(db: Db, orderId: int, request: CancelOrderRequest, now: Timestamp)
    returns (r: Result<int>)
    requires db.Valid()
    modifies db
    ensures db.Valid()
    ensures orderId !in old(db.orders) ==> r == Err(OrderNotFound) && unchanged(db)
    ensures orderId in old(db.orders) && !Cancellable(old(db.orders)[orderId], request.userId) ==>
              r == Err(OrderStatusConflict) && unchanged(db)
    ensures orderId in old(db.orders) && Cancellable(old(db.orders)[orderId], request.userId) ==>
              var o := old(db.orders)[orderId];
              && r == Ok(orderId)
              && db.orders == old(db.orders)[orderId := CancelledOrder(o, request.reason, now)]
              && db.products == RestockAll(old(db.products), o.items)
              && db.users == old(db.users)
  {
    if orderId !in db.orders {
      return Err(OrderNotFound);
    }
    var order := db.orders[orderId];
    if order.customerId != request.userId {
      return Err(OrderStatusConflict);
    }
    if order.status in {OrderStatus.Shipped, OrderStatus.Delivered, Completed, OrderStatus.Cancelled} {
      return Err(OrderStatusConflict);
    }
    db.orders := db.orders[orderId := CancelledOrder(order, request.reason, now)];
    ReturnStock(db, order.items);
    r := Ok(orderId);
  }

  /** `cancelOrder` as the source writes it: a cancelled (or refunded, or
      returned) order can be cancelled again, and each time its items go
      back into stock. */
  method CancelOrderAsWritten(db: Db, orderId: int, request: CancelOrderRequest, now: Timestamp)
    returns (r: Result<int>)
    requires db.Valid()
    modifies db
    ensures db.Valid()
    ensures orderId !in old(db.orders) ==> r == Err(OrderNotFound) && unchanged(db)
    ensures orderId in old(db.orders) && !CancellableAsWritten(old(db.orders)[orderId], request.userId) ==>
              r == Err(OrderStatusConflict) && unchanged(db)
    ensures orderId in old(db.orders) && CancellableAsWritten(old(db.orders)[orderId], request.userId) ==>
              var o := old(db.orders)[orderId];
              && r == Ok(orderId)
              && db.orders == old(db.orders)[orderId := CancelledOrder(o, request.reason, now)]
              && db.products == RestockAll(old(db.products), o.items)
              && db.users == old(db.users)
  {
    if orderId !in db.orders {
      return Err(OrderNotFound);
    }
    var order := db.orders[orderId];
    if order.customerId != request.userId {
      return Err(OrderStatusConflict);
    }
    if order.status in {OrderStatus.Shipped, OrderStatus.Delivered, Completed} {
      return Err(OrderStatusConflict);
    }
    db.orders := db.orders[orderId := CancelledOrder(order, request.reason, now)];
    ReturnStock(db, order.items);
    r := Ok(orderId);
  }

  /** `deleteOrder`. */
  method DeleteOrder(db: Db, orderId: int) returns (r: Result<()>)
    requires db.Valid()
    modifies db
    ensures db.Valid()
    ensures orderId !in old(db.orders) ==> r == Err(OrderNotFound) && unchanged(db)
    ensures orderId in old(db.orders) ==>
              && r == Ok(())
              && db.orders == old(db.orders) - {orderId}
              && db.products == old(db.products) && db.users == old(db.users)
  {
    if orderId !in db.orders {
      return Err(OrderNotFound);
    }
    db.orders := db.orders - {orderId};
    r := Ok(());
  }

  // ---------------------------------------------------------------------
  // Properties
  // ---------------------------------------------------------------------

  /** The loop over one more item is one more pass. */
  lemma {:induction false} ReserveAllNext(products: map<int, Product>, items: seq<OrderItemRequest>, i: nat)
    requires i < |items|
    requires ReserveAll(products, items[..i]).Ok?
    ensures ReserveAll(products, items[..i + 1]) == Reserve(ReserveAll(products, items[..i]).value, items[i])
  {
    assert items[..i + 1][..i] == items[..i];
  }

  /** Once an item fails, the items after it are never looked at: the
      whole loop fails with that item's error. */
  lemma {:induction false} ReserveAllStopsAtError(products: map<int, Product>, items: seq<OrderItemRequest>, n: nat)
    requires n <= |items|
    requires ReserveAll(products, items[..n]).Err?
    ensures ReserveAll(products, items) == ReserveAll(products, items[..n])
    decreases |items| - n
  {
    if n < |items| {
      assert items[..n + 1][..n] == items[..n];
      ReserveAllStopsAtError(products, items, n + 1);
    } else {
      assert items[..n] == items;
    }
  }

  /** The item loop records one line per item, in order, each priced at
      its unit price, and the subtotal is the sum of the line totals. */
  lemma {:induction false} ReservedLines(products: map<int, Product>, items: seq<OrderItemRequest>)
    requires ReserveAll(products, items).Ok?
    ensures var res := ReserveAll(products, items).value;
      && |res.lines| == |items|
      && (forall k :: 0 <= k < |items| ==> LineFor(res.lines[k], items[k]))
      && res.subtotal == SumTotals(res.lines)
  {
    if |items| > 0 {
      var prefix := items[..|items| - 1];
      ReservedLines(products, prefix);
      var before := ReserveAll(products, prefix).value;
      var res := ReserveAll(products, items).value;
      assert res.lines == before.lines + [OrderLine(before.products[items[|items| - 1].productId], items[|items| - 1])];
      assert res.lines[..|res.lines| - 1] == before.lines;
      forall k | 0 <= k < |items| ensures LineFor(res.lines[k], items[k]) {
        if k < |items| - 1 {
          assert prefix[k] == items[k];
        }
      }
    }
  }

  /** One pass of the item loop on one product's counts: only the
      ordered product changes. */
  lemma {:induction false} ReserveStep(res: Reservation, item: OrderItemRequest, id: int)
    requires Reserve(res, item).Ok? && id in res.products
    ensures var next := Reserve(res, item).value;
      var q := if item.productId == id then item.quantity as int else 0;
      && next.products[id].stock == Wrap32(res.products[id].stock as int - q)
      && next.products[id].salesCount == Wrap32(res.products[id].salesCount as int + q)
  {
  }

  /** Two wrapped subtractions in a row are one. */
  lemma {:induction false} TakeThenTake(s: Int32, mid: Int32, last: Int32, a: int, b: int)
    requires mid == Wrap32(s as int - a) && last == Wrap32(mid as int - b)
    ensures last == Wrap32(s as int - (a + b))
  {
    Wrap32Add(s as int - a, -b);
  }

  /** After the item loop, a product's stock is down by the total quantity
      ordered of it (in Java `int` arithmetic). */
  lemma {:induction false} ReservedStock(products: map<int, Product>, items: seq<OrderItemRequest>, id: int)
    requires ReserveAll(products, items).Ok?
    requires id in products
    ensures ReserveAll(products, items).value.products[id].stock
            == Wrap32(products[id].stock as int - Taken(items, id))
  {
    if |items| > 0 {
      var prefix := items[..|items| - 1];
      var item := items[|items| - 1];
      ReservedStock(products, prefix, id);
      var before := ReserveAll(products, prefix).value;
      var res := ReserveAll(products, items).value;
      ReserveStep(before, item, id);
      var q := if item.productId == id then item.quantity as int else 0;
      TakeThenTake(products[id].stock, before.products[id].stock, res.products[id].stock, Taken(prefix, id), q);
    }
  }

  /** After the item loop, a product's sales count is up by the total
      quantity ordered of it (in Java `int` arithmetic). */
  lemma {:induction false} ReservedSales(products: map<int, Product>, items: seq<OrderItemRequest>, id: int)
    requires ReserveAll(products, items).Ok?
    requires id in products
    ensures ReserveAll(products, items).value.products[id].salesCount
            == Wrap32(products[id].salesCount as int + Taken(items, id))
  {
    if |items| > 0 {
      var prefix := items[..|items| - 1];
      var item := items[|items| - 1];
      ReservedSales(products, prefix, id);
      var before := ReserveAll(products, prefix).value;
      var res := ReserveAll(products, items).value;
      ReserveStep(before, item, id);
      var q := if item.productId == id then item.quantity as int else 0;
      TakeThenTake(products[id].salesCount, before.products[id].salesCount, res.products[id].salesCount,
                   -Taken(prefix, id), -q);
    }
  }

  /** Lines that record the items carry the same quantity of each product. */
  lemma {:induction false} LinesCarryItems(lines: seq<OrderItem>, items: seq<OrderItemRequest>, id: int)
    requires |lines| == |items|
    requires forall k :: 0 <= k < |items| ==> LineFor(lines[k], items[k])
    ensures LineQty(lines, id) == Taken(items, id)
  {
    if |items| > 0 {
      var n := |items| - 1;
      assert forall k :: 0 <= k < n ==> lines[..n][k] == lines[k] && items[..n][k] == items[k];
      LinesCarryItems(lines[..n], items[..n], id);
      assert LineFor(lines[n], items[n]);
    }
  }

  /** After the item loop, a product that was ordered and has no stock left
      is out of stock, whatever its status was. */
  lemma {:induction false} SoldOutMarked(products: map<int, Product>, items: seq<OrderItemRequest>, k: int)
    requires ReserveAll(products, items).Ok?
    requires 0 <= k < |items|
    ensures var res := ReserveAll(products, items).value;
      && items[k].productId in res.products
      && (res.products[items[k].productId].stock == 0 ==> res.products[items[k].productId].status == OutOfStock)
  {
    var prefix := items[..|items| - 1];
    var item := items[|items| - 1];
    if item.productId != items[k].productId {
      assert k < |items| - 1;
      assert prefix[k] == items[k];
      SoldOutMarked(products, prefix, k);
    }
  }

  /** Returning the lines puts the total quantity of each product back on
      its stock and leaves its sales count alone. */
  lemma {:induction false} RestockedCounts(products: map<int, Product>, lines: seq<OrderItem>, id: int)
    requires id in products
    ensures RestockAll(products, lines)[id].stock == Wrap32(products[id].stock as int + LineQty(lines, id))
    ensures RestockAll(products, lines)[id].salesCount == products[id].salesCount
  {
    if |lines| > 0 {
      var prefix := lines[..|lines| - 1];
      var line := lines[|lines| - 1];
      RestockedCounts(products, prefix, id);
      if line.productId == id {
        Wrap32Add(products[id].stock as int + LineQty(prefix, id), line.quantity as int);
      }
    }
  }

  /** The item loop changes only the stock, sales count and status of a
      product; its name, price, owner, counters and every other field are
      kept. */
  lemma {:induction false} ReservedKeepsOtherFields(products: map<int, Product>, items: seq<OrderItemRequest>, id: int)
    requires ReserveAll(products, items).Ok? && id in products
    ensures ReserveAll(products, items).value.products[id]
              .(stock := products[id].stock, salesCount := products[id].salesCount, status := products[id].status)
            == products[id]
  {
    if |items| > 0 {
      ReservedKeepsOtherFields(products, items[..|items| - 1], id);
    }
  }

  /** A product that no item names comes out of the item loop as it went
      in. */
  lemma {:induction false} ReserveAllLeavesUnnamed(products: map<int, Product>, items: seq<OrderItemRequest>, id: int)
    requires ReserveAll(products, items).Ok? && id in products
    ensures (forall k :: 0 <= k < |items| ==> items[k].productId != id)
            ==> ReserveAll(products, items).value.products[id] == products[id]
  {
    if |items| > 0 {
      var prefix := items[..|items| - 1];
      ReserveAllLeavesUnnamed(products, prefix, id);
      if forall k :: 0 <= k < |items| ==> items[k].productId != id {
        assert forall k :: 0 <= k < |prefix| ==> prefix[k].productId != id;
      }
    }
  }

  /** Restocking changes only the stock and status of a product; its sales
      count and every other field are kept. */
  lemma {:induction false} RestockedKeepsOtherFields(products: map<int, Product>, lines: seq<OrderItem>, id: int)
    requires id in products
    ensures RestockAll(products, lines)[id].(stock := products[id].stock, status := products[id].status) == products[id]
  {
    if |lines| > 0 {
      RestockedKeepsOtherFields(products, lines[..|lines| - 1], id);
    }
  }

  /** A product that no line names comes out of restocking as it went in. */
  lemma {:induction false} RestockAllLeavesUnnamed(products: map<int, Product>, lines: seq<OrderItem>, id: int)
    requires id in products
    ensures (forall k :: 0 <= k < |lines| ==> lines[k].productId != id) ==> RestockAll(products, lines)[id] == products[id]
  {
    if |lines| > 0 {
      var prefix := lines[..|lines| - 1];
      RestockAllLeavesUnnamed(products, prefix, id);
      if forall k :: 0 <= k < |lines| ==> lines[k].productId != id {
        assert forall k :: 0 <= k < |prefix| ==> prefix[k].productId != id;
      }
    }
  }

  /** Restocking only ever revives a product: one that is not out of stock
      keeps its status, and one that is ends either still out of stock or
      active, and active when the order has a line for it and its stock
      ends positive. */
  lemma {:induction false} RestockedStatus(products: map<int, Product>, lines: seq<OrderItem>, id: int)
    requires id in products
    ensures products[id].status != OutOfStock ==> RestockAll(products, lines)[id].status == products[id].status
    ensures products[id].status == OutOfStock ==> RestockAll(products, lines)[id].status in {OutOfStock, Active}
    ensures products[id].status == OutOfStock && RestockAll(products, lines)[id].stock > 0
            && (exists k :: 0 <= k < |lines| && lines[k].productId == id)
            ==> RestockAll(products, lines)[id].status == Active
  {
    if |lines| > 0 {
      var prefix := lines[..|lines| - 1];
      var line := lines[|lines| - 1];
      RestockedStatus(products, prefix, id);
      if line.productId != id {
        if exists k :: 0 <= k < |lines| && lines[k].productId == id {
          var k :| 0 <= k < |lines| && lines[k].productId == id;
          assert prefix[k].productId == id;
        }
      }
    }
  }

  /** Cancelling a freshly placed order gives a product its stock back;
      the sales it counted stay counted. */
  lemma {:induction false} CancelRestoresStockOf(products: map<int, Product>, items: seq<OrderItemRequest>, id: int)
    requires ReserveAll(products, items).Ok?
    requires id in products
    ensures var res := ReserveAll(products, items).value;
      && RestockAll(res.products, res.lines)[id].stock == products[id].stock
      && RestockAll(res.products, res.lines)[id].salesCount == res.products[id].salesCount
  {
    var res := ReserveAll(products, items).value;
    ReservedStock(products, items, id);
    ReservedLines(products, items);
    LinesCarryItems(res.lines, items, id);
    RestockedCounts(res.products, res.lines, id);
    TakeThenReturn(products[id].stock, res.products[id].stock, RestockAll(res.products, res.lines)[id].stock,
                   Taken(items, id));
  }

  /** Taking and then returning the same amount, both wrapped, is no change. */
  lemma {:induction false} TakeThenReturn(s: Int32, mid: Int32, last: Int32, t: int)
    requires mid == Wrap32(s as int - t) && last == Wrap32(mid as int + t)
    ensures last == s
  {
    Wrap32Add(s as int - t, t);
  }

  /** Cancelling a freshly placed order gives every product its stock
      back. */
  lemma {:induction false} CancelRestoresStock(products: map<int, Product>, items: seq<OrderItemRequest>)
    requires ReserveAll(products, items).Ok?
    ensures var res := ReserveAll(products, items).value;
      forall id :: id in products ==> RestockAll(res.products, res.lines)[id].stock == products[id].stock
  {
    var res := ReserveAll(products, items).value;
    forall id | id in products
      ensures RestockAll(res.products, res.lines)[id].stock == products[id].stock
    {
      CancelRestoresStockOf(products, items, id);
    }
  }

  /** Placing an order and cancelling it at once leaves every stock as it
      was. */
  method PlaceThenCancel(db: Db, request: CreateOrderRequest, orderNumber: string, now: Timestamp,
                         reason: Option<string>) returns (r: Result<int>)
    requires db.Valid()
    modifies db
    ensures db.Valid()
    ensures db.products.Keys == old(db.products).Keys
    ensures forall id :: id in old(db.products) ==> db.products[id].stock == old(db.products)[id].stock
  {
    r := CreateOrder(db, request, orderNumber, now);
    if r.Ok? {
      CancelRestoresStock(old(db.products), request.items);
      var cancelled := CancelOrder(db, r.value, CancelOrderRequest(request.userId, reason), now);
      assert cancelled.Ok?;
    }
  }

  /** The stock check sees the stock taken by earlier items: two lines of
      2 against a stock of 3 are refused. */
  lemma {:induction false} EarlierItemsTakeStock(products: map<int, Product>)
    requires 7 in products && products[7].enabled && products[7].status == Active && products[7].stock == 3
    ensures ReserveAll(products, [OrderItemRequest(7, 2, None)]).Ok?
    ensures ReserveAll(products, [OrderItemRequest(7, 2, None), OrderItemRequest(7, 2, None)])
            == Err(InsufficientStock)
  {
    var one := [OrderItemRequest(7, 2, None)];
    var two := one + [OrderItemRequest(7, 2, None)];
    assert two[..1] == one;
    assert one[..0] == [];
  }

  /** A discontinued product sold out by an order comes back active when
      the order is cancelled. */
  lemma {:induction false} DiscontinuedRevivedByCancel(products: map<int, Product>)
    requires 7 in products && products[7].enabled && products[7].status == Discontinued
    requires products[7].stock == 1
    ensures var res := ReserveAll(products, [OrderItemRequest(7, 1, None)]);
      && res.Ok?
      && res.value.products[7].status == OutOfStock
      && RestockAll(res.value.products, res.value.lines)[7].status == Active
  {
    var items := [OrderItemRequest(7, 1, None)];
    assert items[..0] == [];
    assert ReserveAll(products, items) == Reserve(Reservation(products, [], 0), items[0]);
    var res := ReserveAll(products, items).value;
    assert res.lines[..0] == [];
  }

  /** As written, cancelling the same order twice returns its stock twice:
      one line of 2 against a stock of 3 ends at 7. */
  lemma {:induction false} DoubleCancelInflatesStock(p: Product, o: Order)
    requires p.stock == 3
    requires o.customerId == 1 && o.status == OrderStatus.Cancelled
    requires o.items == [OrderLine(p, OrderItemRequest(7, 2, None))]
    ensures CancellableAsWritten(o, 1)
    ensures RestockAll(RestockAll(map[7 := p], o.items), o.items)[7].stock == 7
  {
    assert o.items[..0] == [];
  }

  /** Cancelling twice through the corrected check returns the stock once:
      the second call is refused and changes nothing. */
  method CancelTwice(db: Db, orderId: int, request: CancelOrderRequest, now: Timestamp)
    returns (first: Result<int>, second: Result<int>)
    requires db.Valid()
    modifies db
    ensures db.Valid()
    ensures first.Ok? ==> second == Err(OrderStatusConflict)
    ensures first.Ok? ==>
              orderId in old(db.orders) && db.products == RestockAll(old(db.products), old(db.orders)[orderId].items)
  {
    first := CancelOrder(db, orderId, request, now);
    second := CancelOrder(db, orderId, request, now);
  }

  /** The discount is `min(discount, subtotal)`, and with the fees and
      discount the request validation admits (none negative) and a
      non-negative subtotal, the floor at zero never applies: the total is
      at least shipping plus tax. */
  lemma {:induction false} TotalWithValidFees(subtotal: Money, shippingFee: Money, taxAmount: Money, discount: Money)
    requires subtotal >= 0 && shippingFee >= 0 && taxAmount >= 0 && discount >= 0
    ensures ClampDiscount(discount, subtotal) == Min(discount, subtotal)
    ensures var d := ClampDiscount(discount, subtotal);
      && TotalAmount(subtotal, shippingFee, taxAmount, d) == subtotal + shippingFee + taxAmount - d
      && TotalAmount(subtotal, shippingFee, taxAmount, d) >= shippingFee + taxAmount
  {
  }

  /** A placed order awaits payment, charges the reserved subtotal, and
      records a line per requested item. */
  lemma {:induction false} NewOrderShape(request: CreateOrderRequest, products: map<int, Product>, orderNumber: string, now: Timestamp)
    requires ReserveAll(products, request.items).Ok?
    ensures var res := ReserveAll(products, request.items).value;
      var o := NewOrder(request, res, orderNumber, now);
      && o.status == PendingPayment && o.paymentStatus == PaymentStatus.Pending
      && o.customerId == request.userId
      && o.subtotal == SumTotals(o.items)
      && |o.items| == |request.items|
      && (forall k :: 0 <= k < |request.items| ==> LineFor(o.items[k], request.items[k]))
      && o.totalAmount >= 0
      && o.discountAmount <= o.subtotal
  {
    ReservedLines(products, request.items);
  }

  /** The status update sets the requested status and stamps the date that
      belongs to it, and no other date. */
  lemma {:induction false} AdvancedDates(o: Order, request: UpdateOrderStatusRequest, now: Timestamp)
    ensures var a := Advanced(o, request, now);
      && a.status == request.status
      && (request.status == OrderStatus.Shipped ==> a.shippedDate == Some(now) && a.deliveredDate == o.deliveredDate)
      && (request.status in {OrderStatus.Delivered, Completed} ==> a.deliveredDate == Some(now) && a.shippedDate == o.shippedDate)
      && (request.status !in {OrderStatus.Shipped, OrderStatus.Delivered, Completed} ==>
            a.shippedDate == o.shippedDate && a.deliveredDate == o.deliveredDate)
      && a.items == o.items && a.totalAmount == o.totalAmount && a.paymentStatus == o.paymentStatus
  {
  }

  /** The payment update's effect on the order status, for each payment
      status. */
  lemma {:induction false} PaymentTransitions(o: Order, request: UpdatePaymentStatusRequest, now: Timestamp)
    ensures var a := PaymentApplied(o, request, now);
      && a.paymentStatus == request.paymentStatus
      && a.paymentReference == request.paymentReference
      && (request.paymentStatus == Paid ==>
            a.status == OrderStatus.Processing
            && a.paymentDate == Some(if request.paidAt.Some? then request.paidAt.value else now))
      && (request.paymentStatus == PaymentStatus.Refunded ==> a.status == OrderStatus.Refunded)
      && (request.paymentStatus == Failed ==> a.status == PendingPayment)
      && (request.paymentStatus in {PaymentStatus.Pending, PartiallyPaid} ==> a.status == o.status)
      && (request.paymentStatus != Paid ==> a.paymentDate == o.paymentDate)
  {
  }

  /** A payment marked paid re-opens a cancelled order for processing. */
  lemma {:induction false} PaidReopensCancelled(o: Order, now: Timestamp)
    requires o.status == OrderStatus.Cancelled
    ensures PaymentApplied(o, UpdatePaymentStatusRequest(Paid, None, None), now).status == OrderStatus.Processing
  {
  }
}
