/** An in-memory stand-in for the MySQL connection the order workflow runs on:
    the four tables it touches, an auto-increment counter for Orders, and a
    connection opened with autocommit off, so that writes wait in a buffer
    until commit() folds them into the committed tables or rollback() drops them. */
module Store {

  datatype Option<+T> = None | Some(value: T)

  datatype CustomerRow = CustomerRow(name: string, email: string, region: string)

  /** A Products row; the price is kept in integer cents. */
  datatype ProductRow = ProductRow(name: string, category: string, priceCents: int, stock: int)

  datatype OrderRow = OrderRow(customerId: int, productId: int, quantity: int, totalPrice: int,
                               orderDate: int, status: string)

  /** An Invoices row; order_id is whatever the order object held, so it may be NULL. */
  datatype InvoiceRow = InvoiceRow(orderId: Option<nat>, amount: int, paymentStatus: string, invoiceDate: int)

  /** Customers and Products keyed by their ids, Orders keyed by the id the store assigned. */
  datatype Tables = Tables(customers: map<int, CustomerRow>, products: map<int, ProductRow>,
                           orders: map<nat, OrderRow>, invoices: seq<InvoiceRow>)

  /** A statement as the application issues it. */
  datatype Stmt =
    | InsertOrder(row: OrderRow)
    | UpdateStock(productId: int, stock: int)
    | InsertInvoice(invoice: InvoiceRow)

  /** A row-level change waiting in the transaction buffer (the order id already assigned). */
  datatype Write =
    | PutOrder(id: nat, row: OrderRow)
    | SetStock(productId: int, stock: int)
    | AddInvoice(invoice: InvoiceRow)

  /** The effect of one write; an UPDATE whose WHERE matches no product changes nothing. */
  function Apply(t: Tables, w: Write): Tables
  {
    match w
    case PutOrder(id, row) => t.(orders := t.orders[id := row])
    case SetStock(pid, v) =>
      if pid in t.products then t.(products := t.products[pid := t.products[pid].(stock := v)]) else t
    case AddInvoice(inv) => t.(invoices := t.invoices + [inv])
  }

  /** The tables as seen after the buffered writes, applied in the order they were issued. */
  function ApplyAll(t: Tables, ws: seq<Write>): Tables
    decreases |ws|
  {
    if ws == [] then t else ApplyAll(Apply(t, ws[0]), ws[1..])
  }

  lemma {:induction false} ApplyAllSnoc(t: Tables, ws: seq<Write>, w: Write)
    ensures ApplyAll(t, ws + [w]) == Apply(ApplyAll(t, ws), w)
    decreases |ws|
  {
    if ws == [] {
      assert ApplyAll(t, [w]) == ApplyAll(Apply(t, w), []);
    } else {
      assert (ws + [w])[0] == ws[0];
      assert (ws + [w])[1..] == ws[1..] + [w];
      ApplyAllSnoc(Apply(t, ws[0]), ws[1..], w);
    }
  }

  ghost predicate IdsBelow(t: Tables, n: nat)
  {
    forall id :: id in t.orders ==> id < n
  }

  ghost predicate PendingIdsBelow(ws: seq<Write>, n: nat)
  {
    forall i :: 0 <= i < |ws| && ws[i].PutOrder? ==> ws[i].id < n
  }

  /** Every order id the buffered writes can produce stays below the counter. */
  lemma {:induction false} ApplyAllIdsBelow(t: Tables, ws: seq<Write>, n: nat)
    requires IdsBelow(t, n) && PendingIdsBelow(ws, n)
    ensures IdsBelow(ApplyAll(t, ws), n)
    decreases |ws|
  {
    if ws != [] {
      assert IdsBelow(Apply(t, ws[0]), n);
      assert PendingIdsBelow(ws[1..], n) by {
        forall i | 0 <= i < |ws[1..]| && ws[1..][i].PutOrder? ensures ws[1..][i].id < n {
          assert ws[1..][i] == ws[i + 1];
        }
      }
      ApplyAllIdsBelow(Apply(t, ws[0]), ws[1..], n);
    }
  }

  /** The state of one connection: committed tables, the uncommitted write buffer,
      the Orders auto-increment counter and the cursor's lastrowid. */
  datatype Db = Db(committed: Tables, pending: seq<Write>, nextOrderId: nat, lastRowId: Option<nat>)

  /** What a statement on this connection reads: committed data plus its own pending writes. */
  function View(db: Db): Tables
  {
    ApplyAll(db.committed, db.pending)
  }

  /** The auto-increment counter is above every order id, committed or buffered. */
  ghost predicate Valid(db: Db)
  {
    IdsBelow(db.committed, db.nextOrderId) && PendingIdsBelow(db.pending, db.nextOrderId)
  }

  lemma ValidView(db: Db)
    ensures Valid(db) ==> IdsBelow(View(db), db.nextOrderId)
  {
    if Valid(db) {
      ApplyAllIdsBelow(db.committed, db.pending, db.nextOrderId);
    }
  }

  function WriteOf(db: Db, s: Stmt): Write
  {
    match s
    case InsertOrder(row) => PutOrder(db.nextOrderId, row)
    case UpdateStock(pid, v) => SetStock(pid, v)
    case InsertInvoice(inv) => AddInvoice(inv)
  }

  /** A statement the server accepted: buffered, not yet committed. An insert into
      Orders takes the next auto-increment id and reports it as lastrowid. */
  function Executed(db: Db, s: Stmt): (r: Db)
    ensures r.committed == db.committed
    ensures View(r) == Apply(View(db), WriteOf(db, s))
    ensures s.InsertOrder? ==> r.lastRowId == Some(db.nextOrderId) && r.nextOrderId == db.nextOrderId + 1
    ensures !s.InsertOrder? ==> r.lastRowId == db.lastRowId && r.nextOrderId == db.nextOrderId
    ensures Valid(db) ==> Valid(r) && db.nextOrderId !in View(db).orders
  {
    ApplyAllSnoc(db.committed, db.pending, WriteOf(db, s));
    ValidView(db);
    var buffered := db.(pending := db.pending + [WriteOf(db, s)]);
    if s.InsertOrder? then buffered.(nextOrderId := db.nextOrderId + 1, lastRowId := Some(db.nextOrderId))
    else buffered
  }

  /** commit(): every buffered write becomes durable. */
  function Committed(db: Db): (r: Db)
    ensures r.pending == [] && r.committed == View(db) && View(r) == View(db)
    ensures r.nextOrderId == db.nextOrderId && r.lastRowId == db.lastRowId
    ensures Valid(db) ==> Valid(r)
  {
    ValidView(db);
    db.(committed := View(db), pending := [])
  }

  /** rollback(): the buffered writes are dropped; committed data and the
      auto-increment counter are untouched. */
  function RolledBack(db: Db): (r: Db)
    ensures r.pending == [] && View(r) == r.committed == db.committed
    ensures r.nextOrderId == db.nextOrderId && r.lastRowId == db.lastRowId
    ensures Valid(db) ==> Valid(r)
  {
    db.(pending := [])
  }

  /** The database server between connections: its tables and its Orders counter. */
  datatype Server = Server(tables: Tables, nextOrderId: nat)

  ghost predicate ServerValid(s: Server)
  {
    IdsBelow(s.tables, s.nextOrderId)
  }

  /** A fresh connection with autocommit off. */
  function Opened(s: Server): (db: Db)
    ensures View(db) == db.committed == s.tables && db.pending == []
    ensures db.nextOrderId == s.nextOrderId && db.lastRowId == None
    ensures ServerValid(s) <==> Valid(db)
  {
    Db(s.tables, [], s.nextOrderId, None)
  }

  /** Closing a connection discards whatever it left uncommitted. */
  function Closed(db: Db): (s: Server)
    ensures s.tables == db.committed && s.nextOrderId == db.nextOrderId
    ensures Valid(db) ==> ServerValid(s)
  {
    Server(db.committed, db.nextOrderId)
  }

  class Connection {
    var committed: Tables
    var pending: seq<Write>
    var nextOrderId: nat
    var lastRowId: Option<nat>

    function State(): Db
      reads this
    {
      Db(committed, pending, nextOrderId, lastRowId)
    }

    constructor Connect(s: Server)
      ensures State() == Opened(s)
    {
      committed, pending, nextOrderId, lastRowId := s.tables, [], s.nextOrderId, None;
    }

    /** cursor.execute on a write statement; `rejected` is the server's choice to raise. */
    method Execute(s: Stmt, rejected: bool) returns (ok: bool)
      modifies this
      ensures ok == !rejected
      ensures State() == if rejected then old(State()) else Executed(old(State()), s)
    {
      if rejected {
        return false;
      }
      pending := pending + [WriteOf(State(), s)];
      if s.InsertOrder? {
        lastRowId := Some(nextOrderId);
        nextOrderId := nextOrderId + 1;
      }
      ok := true;
    }

    /** connection.commit(); `rejected` is the server's choice to raise. */
    method Commit(rejected: bool) returns (ok: bool)
      modifies this
      ensures ok == !rejected
      ensures State() == if rejected then old(State()) else Committed(old(State()))
    {
      if rejected {
        return false;
      }
      committed, pending := View(State()), [];
      ok := true;
    }

    /** connection.rollback() */
    method Rollback()
      modifies this
      ensures State() == RolledBack(old(State()))
    {
      pending := [];
    }

    /** SELECT * FROM Customers WHERE customer_id = id, fetchone() */
    function FindCustomer(id: int): (r: Option<CustomerRow>)
      reads this
      ensures r.Some? <==> id in View(State()).customers
      ensures r.Some? ==> r.value == View(State()).customers[id]
    {
      var t := View(State());
      if id in t.customers then Some(t.customers[id]) else None
    }

    /** SELECT * FROM Products WHERE product_id = id, fetchone() */
    function FindProduct(id: int): (r: Option<ProductRow>)
      reads this
      ensures r.Some? <==> id in View(State()).products
      ensures r.Some? ==> r.value == View(State()).products[id]
    {
      var t := View(State());
      if id in t.products then Some(t.products[id]) else None
    }
  }
}
