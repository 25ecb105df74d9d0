/** The order-placement workflow: a product whose stock is debited on a connection,
    and an order that inserts itself, debits its product and bills itself,
    committing after each step and rolling back on the first error. */
module App {
  import opened Store

  /** What the workflow can raise: the insufficient-stock ValueError, or any
      error the database server reports (mysql.connector errors). */
  datatype Exception = ValueError(message: string) | DatabaseError

  /** How the server treats one step's statement and the commit after it. */
  datatype StepFault = NoFault | ExecuteFails | CommitFails

  /** The server's behaviour on the three steps of one process_order run. */
  datatype Faults = Faults(order: StepFault, stock: StepFault, invoice: StepFault)

  const NoFaults := Faults(NoFault, NoFault, NoFault)

  const Confirmed := "CONFIRMED"
  const Pending := "PENDING"
  const Completed := "COMPLETED"
  const Failed := "FAILED"

  /** A customer as read from the catalog; never changed by the workflow. */
  datatype Customer = Customer(customerId: int, name: string, email: string, region: string)

  function DigitChar(d: nat): (c: char)
    requires d < 10
    ensures '0' <= c <= '9' && c as int - '0' as int == d
  {
    "0123456789"[d]
  }

  /** The number a string of decimal digits denotes, read most significant digit first. */
  function DigitsValue(s: string): int
    decreases |s|
  {
    if s == [] then 0 else 10 * DigitsValue(s[..|s| - 1]) + (s[|s| - 1] as int - '0' as int)
  }

  /** The decimal digits of `n`, most significant first, with no leading zero. */
  function NatToString(n: nat): (r: string)
    ensures |r| >= 1 && (r[0] == '0' <==> n == 0)
    ensures forall k :: 0 <= k < |r| ==> '0' <= r[k] <= '9'
    ensures r[0] == '0' ==> |r| == 1
    ensures DigitsValue(r) == n
    decreases n
  {
    if n < 10 then
      var r := [DigitChar(n)];
      assert r[..0] == [];
      r
    else
      var prefix := NatToString(n / 10);
      var r := prefix + [DigitChar(n % 10)];
      assert r[..|r| - 1] == prefix;
      r
  }

  /** Python's str() of an int: a minus sign exactly for a negative value, then the
      digits of its magnitude. */
  function IntToString(i: int): (r: string)
    ensures |r| >= 1 && (r[0] == '-' <==> i < 0)
    ensures forall k :: (if i < 0 then 1 else 0) <= k < |r| ==> '0' <= r[k] <= '9'
    ensures i < 0 ==> DigitsValue(r[1..]) == -i
    ensures i >= 0 ==> DigitsValue(r) == i
    ensures var digits := if i < 0 then r[1..] else r; |digits| >= 1 && (digits[0] == '0' ==> |digits| == 1)
  {
    if i < 0 then
      var r := "-" + NatToString(-i);
      assert r[1..] == NatToString(-i);
      r
    else NatToString(i)
  }

  lemma IntToStringExamples()
    ensures IntToString(42) == "42" && IntToString(-7) == "-7" && IntToString(0) == "0"
    ensures IntToString(1000) == "1000"
  {
    assert NatToString(4) == "4";
    assert NatToString(100) == "100" by {
      assert NatToString(1) == "1";
      assert NatToString(10) == "10";
    }
  }

  function InsufficientStockMessage(productId: int): string
  {
    "Insufficient stock for product ID " + IntToString(productId)
  }

  /** The fixed part of an order: who buys what, how many, for how much, and when. */
  datatype OrderRequest = OrderRequest(customerId: int, productId: int, quantity: int,
                                       totalPrice: int, orderDate: int)

  function ConfirmedRow(o: OrderRequest): OrderRow
  {
    OrderRow(o.customerId, o.productId, o.quantity, o.totalPrice, o.orderDate, Confirmed)
  }

  function InvoiceOf(o: OrderRequest, orderId: Option<nat>): InvoiceRow
  {
    InvoiceRow(orderId, o.totalPrice, Pending, o.orderDate)
  }

  datatype Step = Step(db: Db, raised: Option<Exception>)

  /** cursor.execute(s) then connection.commit(), either of which the server may reject.
      Commit makes every buffered write durable, not only this step's. */
  function WriteAndCommit(db: Db, s: Stmt, f: StepFault): (r: Step)
    ensures r.raised == None <==> f == NoFault
    ensures r.raised != None ==> r.raised == Some(DatabaseError) && r.db.committed == db.committed
    ensures r.raised == None ==> r.db.pending == [] && r.db.committed == Apply(View(db), WriteOf(db, s))
    ensures Valid(db) ==> Valid(r.db)
  {
    match f
    case ExecuteFails => Step(db, Some(DatabaseError))
    case CommitFails => Step(Executed(db, s), Some(DatabaseError))
    case NoFault => Step(Committed(Executed(db, s)), None)
  }

  /** The outcome of Product.update_stock: the connection, the product's in-memory stock
      and what was raised. */
  datatype DebitRun = DebitRun(db: Db, stock: int, raised: Option<Exception>)

  /** Product.update_stock over the in-memory stock `stock`: the new value is computed
      from that snapshot, not re-read from the table. */
  function Debit(db: Db, productId: int, stock: int, quantity: int, f: StepFault): (r: DebitRun)
    ensures r.raised == None ==> r.stock == stock - quantity >= 0
    ensures r.raised != None ==> r.stock == stock
    ensures Valid(db) ==> Valid(r.db)
  {
    var newStock := stock - quantity;
    if newStock < 0 then DebitRun(db, stock, Some(ValueError(InsufficientStockMessage(productId))))
    else
      var step := WriteAndCommit(db, UpdateStock(productId, newStock), f);
      if step.raised != None then DebitRun(step.db, stock, step.raised)
      else DebitRun(step.db, newStock, None)
  }

  /** The outcome of Order.process_order: the connection, the product's in-memory stock,
      the order's order_id and status, and what was raised. */
  datatype Run = Run(db: Db, stock: int, orderId: Option<nat>, status: Option<string>,
                     raised: Option<Exception>)

  /** The except branch: roll back, mark the order FAILED, re-raise. */
  function Abort(db: Db, stock: int, orderId: Option<nat>, e: Exception): Run
  {
    Run(RolledBack(db), stock, orderId, Some(Failed), Some(e))
  }

  /** Order.process_order: insert the CONFIRMED order and commit, take lastrowid as the
      order id, debit the product, insert the PENDING invoice and commit, mark COMPLETED. */
  function Process(db: Db, o: OrderRequest, stock: int, orderId: Option<nat>, faults: Faults): (r: Run)
    ensures r.raised == None <==> r.status == Some(Completed)
    ensures r.raised != None <==> r.status == Some(Failed)
    ensures r.db.pending == []
    ensures Valid(db) ==> Valid(r.db)
  {
    var placed := WriteAndCommit(db, InsertOrder(ConfirmedRow(o)), faults.order);
    if placed.raised != None then Abort(placed.db, stock, orderId, placed.raised.value)
    else
      var id := placed.db.lastRowId;
      var debit := Debit(placed.db, o.productId, stock, o.quantity, faults.stock);
      if debit.raised != None then Abort(debit.db, debit.stock, id, debit.raised.value)
      else
        var billed := WriteAndCommit(debit.db, InsertInvoice(InvoiceOf(o, id)), faults.invoice);
        if billed.raised != None then Abort(billed.db, debit.stock, id, billed.raised.value)
        else Run(billed.db, debit.stock, id, Some(Completed), None)
  }

  class Product {
    const productId: int
    const name: string
    const category: string
    const priceCents: int
    var stock: int

    constructor (productId: int, name: string, category: string, priceCents: int, stock: int)
      ensures this.productId == productId && this.name == name && this.category == category
      ensures this.priceCents == priceCents && this.stock == stock
    {
      this.productId, this.name, this.category := productId, name, category;
      this.priceCents, this.stock := priceCents, stock;
    }

    /** update_stock(connection, quantity); `f` is how the server treats the UPDATE and its commit. */
    method UpdateStock(conn: Connection, quantity: int, f: StepFault) returns (raised: Option<Exception>)
      modifies this`stock, conn
      ensures DebitRun(conn.State(), stock, raised) == Debit(old(conn.State()), productId, old(stock), quantity, f)
    {
      var newStock := stock - quantity;
      if newStock < 0 {
        return Some(ValueError(InsufficientStockMessage(productId)));
      }
      var ok := conn.Execute(Stmt.UpdateStock(productId, newStock), f == ExecuteFails);
      if ok {
        ok := conn.Commit(f == CommitFails);
      }
      if !ok {
        return Some(DatabaseError);
      }
      stock := newStock;
      raised := None;
    }
  }

  class Order {
    var orderId: Option<nat>
    const customer: Customer
    const product: Product
    const quantity: int
    /** round(price * quantity, 2), kept in integer cents. */
    const totalPrice: int
    const orderDate: int
    /** Unset until process_order runs. */
    var status: Option<string>

    constructor (orderId: Option<nat>, customer: Customer, product: Product, quantity: int, orderDate: int)
      ensures this.orderId == orderId && this.customer == customer && this.product == product
      ensures this.quantity == quantity && this.orderDate == orderDate
      ensures totalPrice == product.priceCents * quantity
      ensures status == None
    {
      this.orderId, this.customer, this.product := orderId, customer, product;
      this.quantity, this.orderDate := quantity, orderDate;
      totalPrice := product.priceCents * quantity;
      status := None;
    }

    function Request(): OrderRequest
    {
      OrderRequest(customer.customerId, product.productId, quantity, totalPrice, orderDate)
    }

    /** process_order(connection); `faults` is how the server treats each step. */
    method ProcessOrder(conn: Connection, faults: Faults) returns (raised: Option<Exception>)
      modifies this, product, conn
      ensures Run(conn.State(), product.stock, orderId, status, raised)
           == Process(old(conn.State()), Request(), old(product.stock), old(orderId), faults)
    {
      var ok := conn.Execute(InsertOrder(ConfirmedRow(Request())), faults.order == ExecuteFails);
      if ok {
        ok := conn.Commit(faults.order == CommitFails);
      }
      if !ok {
        conn.Rollback();
        status := Some(Failed);
        return Some(DatabaseError);
      }
      orderId := conn.lastRowId;

      raised := product.UpdateStock(conn, quantity, faults.stock);
      if raised != None {
        conn.Rollback();
        status := Some(Failed);
        return;
      }

      ok := conn.Execute(InsertInvoice(InvoiceOf(Request(), orderId)), faults.invoice == ExecuteFails);
      if ok {
        ok := conn.Commit(faults.invoice == CommitFails);
      }
      if !ok {
        conn.Rollback();
        status := Some(Failed);
        return Some(DatabaseError);
      }
      status := Some(Completed);
    }
  }
}
