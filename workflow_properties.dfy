/** What the order workflow does to the database, step by step and on every failure path.
    The workflow commits after the order insert and again inside the stock debit, so the
    rollback in its except branch only ever drops the last, uncommitted statement:
    earlier steps survive a failure. */
module WorkflowProperties {
  import opened Store
  import opened App

  /** `after` is `before` with product `productId`'s stock set to `newStock`
      (and nothing at all changed when no such product exists). */
  ghost predicate StockSetTo(before: map<int, ProductRow>, after: map<int, ProductRow>, productId: int, newStock: int)
  {
    && after.Keys == before.Keys
    && (forall p :: p in before && p != productId ==> after[p] == before[p])
    && (productId in before ==> after[productId] == before[productId].(stock := newStock))
  }

  // ---- Product.update_stock ----

  /** More than the in-memory stock is refused with a ValueError before any statement is issued. */
  lemma DebitRejectsInsufficient(db: Db, productId: int, stock: int, quantity: int, f: StepFault)
    requires quantity > stock
    ensures Debit(db, productId, stock, quantity, f)
         == DebitRun(db, stock, Some(ValueError(InsufficientStockMessage(productId))))
  {
  }

  /** Exactly the available stock is accepted and leaves zero, in memory and in the table. */
  lemma DebitAcceptsExactStock(db: Db, productId: int, stock: int)
    ensures var r := Debit(db, productId, stock, stock, NoFault);
            && r.raised == None && r.stock == 0
            && (productId in View(db).products ==> r.db.committed.products[productId].stock == 0)
  {
  }

  /** A successful debit writes the snapshot stock minus the quantity, touches no other
      product, and commits it: nothing is left buffered for a later rollback to drop,
      so that rollback cannot undo it. Nothing checks that the
      quantity is positive, so a zero or negative quantity never lowers the stock. */
  lemma DebitCommits(db: Db, productId: int, stock: int, quantity: int)
    requires quantity <= stock
    ensures var r := Debit(db, productId, stock, quantity, NoFault);
            && r.raised == None
            && r.stock == stock - quantity
            && (quantity <= 0 ==> r.stock >= stock)
            && r.db.pending == []
            && StockSetTo(View(db).products, r.db.committed.products, productId, stock - quantity)
            && r.db.committed.orders == View(db).orders
            && r.db.committed.invoices == View(db).invoices
  {
  }

  /** If the server rejects the UPDATE or its commit, update_stock raises, keeps its
      in-memory stock and leaves the committed tables as they were. */
  lemma DebitServerFailure(db: Db, productId: int, stock: int, quantity: int, f: StepFault)
    requires quantity <= stock && f != NoFault
    ensures var r := Debit(db, productId, stock, quantity, f);
            && r.raised == Some(DatabaseError)
            && r.stock == stock
            && r.db.committed == db.committed
  {
  }

  // ---- Order.process_order ----

  /** Which exception process_order re-raises, if any: none exactly when no step is
      rejected and the stock suffices; the ValueError exactly when the order insert
      went through and the stock did not suffice; a database error otherwise. */
  lemma ProcessRaises(db: Db, o: OrderRequest, stock: int, orderId: Option<nat>, faults: Faults)
    ensures var r := Process(db, o, stock, orderId, faults);
            && (r.raised == None <==> faults == NoFaults && o.quantity <= stock)
            && (var insufficient := ValueError(InsufficientStockMessage(o.productId));
                r.raised == Some(insufficient) <==> faults.order == NoFault && o.quantity > stock)
            && (var failing := faults.order != NoFault || (o.quantity <= stock && faults != NoFaults);
                r.raised == Some(DatabaseError) <==> failing)
  {
  }

  /** A run with no rejected step and enough stock adds exactly one CONFIRMED order under
      a fresh id, which becomes the order's order_id, exactly one PENDING invoice for
      that id and the total price, debits the product, and ends COMPLETED. */
  lemma ProcessSucceeds(db: Db, o: OrderRequest, stock: int, orderId: Option<nat>)
    requires Valid(db) && o.quantity <= stock
    ensures var r := Process(db, o, stock, orderId, NoFaults);
            var before, id := View(db), db.nextOrderId;
            && r.raised == None && r.status == Some(Completed)
            && r.orderId == Some(id) && id !in before.orders
            && r.db.committed.orders == before.orders[id := ConfirmedRow(o)]
            && r.db.committed.invoices == before.invoices + [InvoiceRow(Some(id), o.totalPrice, Pending, o.orderDate)]
            && StockSetTo(before.products, r.db.committed.products, o.productId, stock - o.quantity)
            && r.db.committed.customers == before.customers
            && r.stock == stock - o.quantity
            && r.db.pending == []
  {
  }

  /** The order row is committed before the stock check: when the stock does not suffice,
      the CONFIRMED order stays in the database with no invoice, the stock is unchanged,
      the auto-increment counter has moved past the new id, the order is FAILED and the
      ValueError is re-raised. */
  lemma InsufficientStockKeepsConfirmedOrder(db: Db, o: OrderRequest, stock: int, orderId: Option<nat>, faults: Faults)
    requires Valid(db) && faults.order == NoFault && o.quantity > stock
    ensures var r := Process(db, o, stock, orderId, faults);
            var before, id := View(db), db.nextOrderId;
            && r.raised == Some(ValueError(InsufficientStockMessage(o.productId)))
            && r.status == Some(Failed)
            && r.orderId == Some(id) && id !in before.orders
            && r.db.committed.orders == before.orders[id := ConfirmedRow(o)]
            && r.db.committed.invoices == before.invoices
            && r.db.committed.products == before.products
            && r.db.nextOrderId == id + 1
            && r.stock == stock
  {
  }

  /** When the server rejects the stock UPDATE or its commit, the committed order survives
      the rollback while stock and invoices are unchanged. */
  lemma StockFailureKeepsOrder(db: Db, o: OrderRequest, stock: int, orderId: Option<nat>, faults: Faults)
    requires faults.order == NoFault && faults.stock != NoFault && o.quantity <= stock
    ensures var r := Process(db, o, stock, orderId, faults);
            var before, id := View(db), db.nextOrderId;
            && r.raised == Some(DatabaseError) && r.status == Some(Failed)
            && r.orderId == Some(id)
            && r.db.committed.orders == before.orders[id := ConfirmedRow(o)]
            && r.db.committed.invoices == before.invoices
            && r.db.committed.products == before.products
            && r.stock == stock
  {
  }

  /** When the server rejects the invoice INSERT or its commit, both the order row and the
      stock debit stay committed, no invoice exists, and the product object keeps the
      debited stock, yet the order is FAILED. */
  lemma InvoiceFailureKeepsOrderAndDebit(db: Db, o: OrderRequest, stock: int, orderId: Option<nat>, faults: Faults)
    requires faults.order == NoFault && faults.stock == NoFault && faults.invoice != NoFault
    requires o.quantity <= stock
    ensures var r := Process(db, o, stock, orderId, faults);
            var before, id := View(db), db.nextOrderId;
            && r.raised == Some(DatabaseError) && r.status == Some(Failed)
            && r.orderId == Some(id)
            && r.db.committed.orders == before.orders[id := ConfirmedRow(o)]
            && r.db.committed.invoices == before.invoices
            && StockSetTo(before.products, r.db.committed.products, o.productId, stock - o.quantity)
            && r.stock == stock - o.quantity
  {
  }

  /** Only a rejected order insert leaves nothing behind: the committed tables, the
      order id and the stock are as before, and the order is FAILED. */
  lemma OrderInsertFailureWritesNothing(db: Db, o: OrderRequest, stock: int, orderId: Option<nat>, faults: Faults)
    requires faults.order != NoFault
    ensures var r := Process(db, o, stock, orderId, faults);
            && r.raised == Some(DatabaseError) && r.status == Some(Failed)
            && r.db.committed == db.committed
            && r.orderId == orderId && r.stock == stock
  {
  }
}
