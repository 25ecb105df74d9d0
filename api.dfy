/** The outcome decision of the place-order endpoint, without the web framework: parse the
    three fields, look up the customer and then the product, run the order workflow on a
    fresh connection, and map what it raised to a status code and a body. */
module Api {
  import opened Store
  import opened App
  import opened WorkflowProperties

  /** The request's customer_id, product_id and quantity after int(); None where int() raised. */
  datatype Payload = Payload(customerId: Option<int>, productId: Option<int>, quantity: Option<int>)

  datatype Body =
    | ErrorBody(error: string)
    | PlacedBody(message: string, orderId: Option<nat>, customerId: int, productId: int,
                 quantity: int, totalPrice: int, status: Option<string>)

  datatype Response = Response(code: int, body: Body)

  /** The response together with the database as the request leaves it. */
  datatype Exchange = Exchange(response: Response, server: Server)

  const InvalidPayload := Response(400, ErrorBody("Invalid Payload"))
  const CustomerNotFound := Response(404, ErrorBody("Customer not found"))
  const ProductNotFound := Response(404, ErrorBody("Product not found"))
  const ProcessingFailed := Response(500, ErrorBody("Order processing failed"))

  /** The order a well-formed request for known entities builds: the total is the
      catalog price times the quantity. */
  function RequestFor(s: Server, customerId: int, productId: int, quantity: int, orderDate: int): OrderRequest
    requires productId in s.tables.products
  {
    OrderRequest(customerId, productId, quantity, s.tables.products[productId].priceCents * quantity, orderDate)
  }

  /** api_place_order: `orderDate` stands for datetime.now(), `faults` for how the
      server treats each step of the workflow. */
  function PlaceOrderSpec(p: Payload, s: Server, orderDate: int, faults: Faults): (x: Exchange)
    ensures x.response.code in {201, 400, 404, 500}
    ensures ServerValid(s) ==> ServerValid(x.server)
    ensures x.response.code == 201 <==> x.response.body.PlacedBody?
  {
    if p.customerId == None || p.productId == None || p.quantity == None then
      Exchange(InvalidPayload, s)
    else
      var customerId, productId, quantity := p.customerId.value, p.productId.value, p.quantity.value;
      var db := Opened(s);
      if customerId !in View(db).customers then Exchange(CustomerNotFound, Closed(db))
      else if productId !in View(db).products then Exchange(ProductNotFound, Closed(db))
      else
        var o := RequestFor(s, customerId, productId, quantity, orderDate);
        var r := Process(db, o, s.tables.products[productId].stock, None, faults);
        match r.raised
        case Some(ValueError(message)) => Exchange(Response(400, ErrorBody(message)), Closed(r.db))
        case Some(DatabaseError) => Exchange(ProcessingFailed, Closed(RolledBack(r.db)))
        case None =>
          var body := PlacedBody("Order placed successfully", r.orderId, customerId, productId,
                                 quantity, o.totalPrice, r.status);
          Exchange(Response(201, body), Closed(r.db))
  }

  /** api_place_order over the workflow's objects: a connection, a Product and an Order. */
  method PlaceOrder(p: Payload, s: Server, orderDate: int, faults: Faults) returns (x: Exchange)
    ensures x == PlaceOrderSpec(p, s, orderDate, faults)
  {
    if p.customerId == None || p.productId == None || p.quantity == None {
      return Exchange(InvalidPayload, s);
    }
    var customerId, productId, quantity := p.customerId.value, p.productId.value, p.quantity.value;
    var conn := new Connection.Connect(s);

    var customerRow := conn.FindCustomer(customerId);
    if customerRow == None {
      return Exchange(CustomerNotFound, Closed(conn.State()));
    }
    var customer := Customer(customerId, customerRow.value.name, customerRow.value.email, customerRow.value.region);

    var productRow := conn.FindProduct(productId);
    if productRow == None {
      return Exchange(ProductNotFound, Closed(conn.State()));
    }
    var row := productRow.value;
    var product := new Product(productId, row.name, row.category, row.priceCents, row.stock);

    var order := new Order(None, customer, product, quantity, orderDate);
    assert order.Request() == RequestFor(s, customerId, productId, quantity, orderDate);
    var raised := order.ProcessOrder(conn, faults);
    match raised {
      case Some(ValueError(message)) =>
        x := Exchange(Response(400, ErrorBody(message)), Closed(conn.State()));
      case Some(DatabaseError) =>
        conn.Rollback();
        x := Exchange(ProcessingFailed, Closed(conn.State()));
      case None =>
        var body := PlacedBody("Order placed successfully", order.orderId, customer.customerId,
                               product.productId, order.quantity, order.totalPrice, order.status);
        x := Exchange(Response(201, body), Closed(conn.State()));
    }
  }

  // ---- the order of the checks ----

  /** A field that int() cannot convert gives 400 before the database is touched. */
  lemma InvalidPayloadFirst(p: Payload, s: Server, orderDate: int, faults: Faults)
    requires p.customerId == None || p.productId == None || p.quantity == None
    ensures PlaceOrderSpec(p, s, orderDate, faults) == Exchange(InvalidPayload, s)
  {
  }

  /** An unknown customer gives 404 whether or not the product exists, and writes nothing. */
  lemma UnknownCustomerBeforeProduct(customerId: int, productId: int, quantity: int, s: Server, orderDate: int, faults: Faults)
    requires customerId !in s.tables.customers
    ensures PlaceOrderSpec(Payload(Some(customerId), Some(productId), Some(quantity)), s, orderDate, faults)
         == Exchange(CustomerNotFound, s)
  {
  }

  /** A known customer with an unknown product gives 404 and writes nothing. */
  lemma UnknownProduct(customerId: int, productId: int, quantity: int, s: Server, orderDate: int, faults: Faults)
    requires customerId in s.tables.customers && productId !in s.tables.products
    ensures PlaceOrderSpec(Payload(Some(customerId), Some(productId), Some(quantity)), s, orderDate, faults)
         == Exchange(ProductNotFound, s)
  {
  }

  /** For a well-formed request naming known entities: 201 exactly when the server rejects
      nothing and the stock suffices; 400 with the insufficient-stock message exactly when
      the order insert went through and the stock did not suffice; 500 with a generic
      message otherwise. A 404 never comes out of the workflow. */
  lemma WorkflowResponse(customerId: int, productId: int, quantity: int, s: Server, orderDate: int, faults: Faults)
    requires customerId in s.tables.customers && productId in s.tables.products
    ensures var x := PlaceOrderSpec(Payload(Some(customerId), Some(productId), Some(quantity)), s, orderDate, faults);
            var stock := s.tables.products[productId].stock;
            && (x.response.code == 201 <==> faults == NoFaults && quantity <= stock)
            && (var insufficient := Response(400, ErrorBody(InsufficientStockMessage(productId)));
                x.response == insufficient <==> faults.order == NoFault && quantity > stock)
            && (var failing := faults.order != NoFault || (quantity <= stock && faults != NoFaults);
                x.response == ProcessingFailed <==> failing)
            && x.response.code != 404
  {
  }

  /** A successful request answers 201 and echoes the new order's id, the quantity, the total
      and COMPLETED; the database gains that CONFIRMED order and its PENDING invoice, and
      the product's stock drops by the quantity. */
  lemma PlacedOrderEchoed(customerId: int, productId: int, quantity: int, s: Server, orderDate: int)
    requires ServerValid(s)
    requires customerId in s.tables.customers && productId in s.tables.products
    requires quantity <= s.tables.products[productId].stock
    ensures var x := PlaceOrderSpec(Payload(Some(customerId), Some(productId), Some(quantity)), s, orderDate, NoFaults);
            var o, id := RequestFor(s, customerId, productId, quantity, orderDate), s.nextOrderId;
            && x.response == Response(201, PlacedBody("Order placed successfully", Some(id), customerId, productId,
                                                      quantity, o.totalPrice, Some(Completed)))
            && id !in s.tables.orders
            && x.server.tables.orders == s.tables.orders[id := ConfirmedRow(o)]
            && x.server.tables.invoices == s.tables.invoices + [InvoiceRow(Some(id), o.totalPrice, Pending, orderDate)]
            && StockSetTo(s.tables.products, x.server.tables.products, productId,
                          s.tables.products[productId].stock - quantity)
  {
  }

  // ---- what survives across requests ----

  ghost predicate StocksNonNegative(t: Tables)
  {
    forall id :: id in t.products ==> t.products[id].stock >= 0
  }

  /** No request, whatever the server rejects, drives a persisted stock below zero. */
  lemma StockStaysNonNegative(p: Payload, s: Server, orderDate: int, faults: Faults)
    requires ServerValid(s) && StocksNonNegative(s.tables)
    ensures StocksNonNegative(PlaceOrderSpec(p, s, orderDate, faults).server.tables)
  {
  }

  /** A request for more than the stock never changes any stock, yet, once its order insert
      went through, leaves one more CONFIRMED order behind. */
  lemma RejectedRequestKeepsStock(customerId: int, productId: int, quantity: int, s: Server, orderDate: int, faults: Faults)
    requires ServerValid(s)
    requires customerId in s.tables.customers && productId in s.tables.products
    requires quantity > s.tables.products[productId].stock
    ensures var x := PlaceOrderSpec(Payload(Some(customerId), Some(productId), Some(quantity)), s, orderDate, faults);
            && x.server.tables.products == s.tables.products
            && x.server.tables.invoices == s.tables.invoices
            && x.server.tables.customers == s.tables.customers
            && (faults.order == NoFault ==>
                  x.server.tables.orders
                    == s.tables.orders[s.nextOrderId := ConfirmedRow(RequestFor(s, customerId, productId, quantity, orderDate))])
            && (faults.order == NoFault ==> x.server.nextOrderId == s.nextOrderId + 1)
            && (faults.order != NoFault ==> x.server.tables.orders == s.tables.orders)
  {
  }

  /** Sending a request for more than the stock twice never changes the stock and never
      answers 201; when both order inserts go through, two CONFIRMED orders are left behind,
      under two consecutive fresh ids. */
  lemma RepeatedRejectionKeepsStock(customerId: int, productId: int, quantity: int, s: Server,
                                    first: int, second: int, f1: Faults, f2: Faults)
    requires ServerValid(s)
    requires customerId in s.tables.customers && productId in s.tables.products
    requires quantity > s.tables.products[productId].stock
    ensures var p := Payload(Some(customerId), Some(productId), Some(quantity));
            var x1 := PlaceOrderSpec(p, s, first, f1);
            var x2 := PlaceOrderSpec(p, x1.server, second, f2);
            && x2.server.tables.products == s.tables.products
            && x2.response.code != 201 && x1.response.code != 201
            && (var row := ConfirmedRow(RequestFor(s, customerId, productId, quantity, first));
                var row' := ConfirmedRow(RequestFor(s, customerId, productId, quantity, second));
                f1.order == NoFault && f2.order == NoFault ==>
                  x2.server.tables.orders == s.tables.orders[s.nextOrderId := row][s.nextOrderId + 1 := row'])
  {
  }
}
