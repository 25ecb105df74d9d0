# Order placement workflow of SmartOrderSync, in Dafny

This project models the order-placement core of the SmartOrderSync backend (`app.py`).
A request names a customer, a product and a quantity. The endpoint looks up the customer
and then the product. It builds a `Product` and an `Order` object and runs
`Order.process_order` on a MySQL connection opened with autocommit off. That workflow:

1. inserts a `CONFIRMED` row into `Orders` and commits;
2. takes the cursor's `lastrowid` as the order id;
3. debits the product's stock through `Product.update_stock`, which refuses a negative
   result with a `ValueError` and otherwise updates the row and commits;
4. inserts a `PENDING` row into `Invoices` and commits;
5. marks the order `COMPLETED`.

On any exception it rolls back, marks the order `FAILED` and re-raises. The endpoint maps
the outcome to 201, 400, 404 or 500.

The model has four modules:

- `Store` (`store.dfy`) stands in for the database. It holds the four tables, the `Orders`
  auto-increment counter and a connection. A connection keeps committed tables plus a
  buffer of uncommitted writes. Statements read the committed tables with the buffer
  applied. `commit()` folds the buffer into the committed tables, `rollback()` drops it,
  and closing the connection drops it too. `Connection` is a class whose methods change
  its fields. `Executed`, `Committed`, `RolledBack`, `Opened` and `Closed` are the value
  functions that specify those methods.
- `App` (`app.dfy`) has `Product` and `Order` as classes whose methods update `stock`,
  `order_id` and `status` in place on a `Connection`. Each method is proved equal to a
  value function: `Debit` for `update_stock` and `Process` for `process_order`.
- `WorkflowProperties` (`workflow_properties.dfy`) proves what `Debit` and `Process` do to
  the committed tables, on success and on every failure path.
- `Api` (`api.dfy`) has `PlaceOrderSpec`, the outcome decision of `api_place_order` as a
  function of the parsed payload and the database. `PlaceOrder` is the same endpoint run
  over the objects. Lemmas fix the order of the checks and what survives each request.

The database server's failures are an explicit parameter. `Faults` says, for each of the
three steps (order insert, stock update, invoice insert), whether the server accepts both
the statement and the commit after it (`NoFault`), raises on the statement
(`ExecuteFails`), or raises on the commit (`CommitFails`).

**The rollback does not make the workflow all-or-nothing.** The `except` branch of
`process_order` calls `rollback()` (`app.py:79-80`), which suggests that a failed order
should leave no trace. But the workflow commits right after the order insert (`app.py:65`)
and again inside the stock debit (`app.py:44`), so that `rollback()` can only drop the one
statement still uncommitted. The model follows the code and shows three consequences:

- When the stock is insufficient, a `CONFIRMED` order with no invoice stays in the database
  (`InsufficientStockKeepsConfirmedOrder`).
- When the invoice insert fails, both the order and the stock debit stay
  (`InvoiceFailureKeepsOrderAndDebit`).
- A rejected request leaves one more order each time its order insert goes through, although
  it never changes the stock (`RejectedRequestKeepsStock`, `RepeatedRejectionKeepsStock`).

Nothing checks that the quantity is positive: the endpoint only converts it with `int()`
(`app.py:105-107`) and `update_stock` only rejects a negative new stock (`app.py:39-40`).
A zero or negative quantity is therefore accepted and never lowers the stock
(`DebitCommits`).

## Model

| member | source | states |
|---|---|---|
| `Store.Executed` | app.py:61-66 | A statement the server accepts is buffered, not committed: the connection's view gains exactly that write. An `Orders` insert takes the next auto-increment id, which was not yet in use, and reports it as `lastrowid`. |
| `Store.Committed` | app.py:44 | `commit()` makes every buffered write durable, not only the last statement's, and leaves the buffer empty. The view is unchanged. |
| `Store.RolledBack` | app.py:80 | `rollback()` drops only the uncommitted writes. Committed data and the auto-increment counter are untouched. |
| `Store.Opened` | app.py:111 | A new connection sees exactly the server's tables, has nothing buffered, starts from the server's auto-increment counter and has no `lastrowid` yet. |
| `Store.Closed` | app.py:141 | Closing a connection keeps only what was committed. |
| `Store.Connection.Connect` | app.py:12-19 | A connection object starts in the state `Opened` gives it, with autocommit off. |
| `Store.Connection.Execute` | app.py:61-64 | `cursor.execute` either raises, changing nothing, or buffers the statement as `Executed` says. |
| `Store.Connection.Commit` | app.py:65 | `connection.commit()` either raises, changing nothing, or commits as `Committed` says. |
| `Store.Connection.Rollback` | app.py:80 | `connection.rollback()` leaves the state `RolledBack` gives. |
| `Store.Connection.FindCustomer` | app.py:115-116 | The customer lookup returns a row exactly when the id is in `Customers`, and returns that row. |
| `Store.Connection.FindProduct` | app.py:123-124 | The product lookup returns a row exactly when the id is in `Products`, and returns that row. |
| `App.NatToString` | app.py:41 | The decimal digits of a natural number: at least one digit, only digits, a leading `0` exactly for zero and then as the only digit (no zero padding), and the digits read back (`DigitsValue`) give the number. |
| `App.IntToString` | app.py:41 | Python's `str()` of the product id in the insufficient-stock message: a leading `-` exactly for a negative value, followed only by digits whose value is the magnitude of the id, with no leading zero unless the digits are the single `0`. |
| `App.IntToStringExamples` | app.py:41 | `str(42)`, `str(-7)`, `str(0)` and `str(1000)` give `"42"`, `"-7"`, `"0"` and `"1000"`. |
| `App.WriteAndCommit` | app.py:72-76 | One statement followed by a commit. It raises a database error exactly when the server rejects either one, and then the committed tables are unchanged. Otherwise the committed tables become the old view plus the statement's write. |
| `App.Debit` | app.py:38-46 | `update_stock`. On success the in-memory stock becomes the old in-memory stock minus the quantity, which is never negative. On any exception the in-memory stock is unchanged. |
| `App.Process` | app.py:57-82 | `process_order`. The status is `COMPLETED` exactly when nothing was raised and `FAILED` exactly when something was. No uncommitted write is left either way. |
| `App.Product.constructor` | app.py:31-36 | The product object holds the catalog row's id, name, category, price and stock. |
| `App.Product.UpdateStock` | app.py:38-46 | The connection, `self.stock` and the exception raised are exactly what `Debit` gives for the old connection state and the old `self.stock`. |
| `App.Order.constructor` | app.py:49-55 | The order holds the given id, customer, product, quantity and date. `total_price` is the product's price times the quantity, and `status` is unset. |
| `App.Order.ProcessOrder` | app.py:57-82 | The connection, `product.stock`, `order_id`, `status` and the exception raised are exactly what `Process` gives for the old state. |
| `WorkflowProperties.DebitRejectsInsufficient` | app.py:39-41 | A quantity above the in-memory stock raises `ValueError("Insufficient stock for product ID <id>")`. Nothing is executed and the in-memory stock is unchanged. |
| `WorkflowProperties.DebitAcceptsExactStock` | app.py:39-40 | A quantity equal to the stock is accepted, because the check is `new_stock < 0`. The stock ends at 0, both in memory and in the committed row. |
| `WorkflowProperties.DebitCommits` | app.py:42-46 | A successful debit sets the committed stock of that product to the snapshot minus the quantity. No other product changes, and neither do the orders or the invoices. It is committed and nothing is left buffered, so a later rollback cannot undo it. A non-positive quantity never lowers the stock. |
| `WorkflowProperties.DebitServerFailure` | app.py:42-45 | When the server rejects the `UPDATE` or its commit, `update_stock` raises and keeps its in-memory stock, and the committed tables are as before. |
| `WorkflowProperties.ProcessRaises` | app.py:57-82 | `process_order` raises nothing exactly when no step is rejected and the stock suffices. It re-raises the insufficient-stock `ValueError` exactly when the order insert went through and the stock did not suffice. In every other case it raises a database error. |
| `WorkflowProperties.ProcessSucceeds` | app.py:57-78 | On success there is exactly one new `CONFIRMED` order row, under a fresh id that becomes `order_id`. There is exactly one new invoice for that id, with the total as its amount, `PENDING` status and the order date. The product's stock is debited in the table and in memory, and the status is `COMPLETED`. |
| `WorkflowProperties.InsufficientStockKeepsConfirmedOrder` | app.py:61-82 | With insufficient stock, the `CONFIRMED` order row stays committed under its fresh id. No invoice is added, the stock is unchanged in the table and in memory, the auto-increment counter moves past the new id, `order_id` is set, the status is `FAILED`, and the `ValueError` is re-raised. |
| `WorkflowProperties.StockFailureKeepsOrder` | app.py:65-82 | When the server rejects the stock update, the committed order survives the rollback. Stock and invoices are unchanged and the status is `FAILED`. |
| `WorkflowProperties.InvoiceFailureKeepsOrderAndDebit` | app.py:65-82 | When the server rejects the invoice insert, the order row and the stock debit both stay committed and no invoice exists. The product object keeps the debited stock and the status is `FAILED`. |
| `WorkflowProperties.OrderInsertFailureWritesNothing` | app.py:61-65 | When the server rejects the order insert or its commit, the committed tables, `order_id` and the stock are unchanged and the status is `FAILED`. |
| `Api.PlaceOrderSpec` | app.py:102-150 | `api_place_order` answers 201, 400, 404 or 500, and only a 201 carries the order body. Every request keeps the auto-increment counter above every order id. |
| `Api.PlaceOrder` | app.py:102-150 | Running the endpoint over a connection, a `Product` and an `Order` gives exactly the response and the database that `PlaceOrderSpec` gives. |
| `Api.InvalidPayloadFirst` | app.py:103-109 | A field that `int()` cannot convert gives 400 "Invalid Payload" before the database is touched. |
| `Api.UnknownCustomerBeforeProduct` | app.py:114-119 | An unknown customer gives 404 "Customer not found" whether or not the product exists, and writes nothing. |
| `Api.UnknownProduct` | app.py:122-127 | A known customer with an unknown product gives 404 "Product not found" and writes nothing. |
| `Api.WorkflowResponse` | app.py:130-150 | For a well-formed request naming a known customer and product, the response is 201 exactly when the server rejects nothing and the stock suffices. It is 400 with the `ValueError`'s message exactly when the stock is insufficient and the order insert went through. It is 500 with the generic message otherwise, and never 404. |
| `Api.PlacedOrderEchoed` | app.py:130-150 | A successful request answers 201 with the new order's id, the customer, product, quantity, total and `COMPLETED`. The database gains that `CONFIRMED` order and its `PENDING` invoice, and the product's stock drops by the quantity. |
| `Api.StockStaysNonNegative` | app.py:38-46 | Whatever the server rejects, no request drives a persisted stock below zero. |
| `Api.RejectedRequestKeepsStock` | app.py:61-82 | A request for more than the stock changes no stock and no invoice. Once its order insert went through, it leaves one more `CONFIRMED` order behind and the counter moves past its id. |
| `Api.RepeatedRejectionKeepsStock` | app.py:130-139 | Sending a request for more than the stock twice never changes the stock and never answers 201. When both order inserts go through, two `CONFIRMED` orders are added under two consecutive fresh ids. |

## Left out

- Flask routing, `render_template`, CORS, JSON (de)serialisation and `app.run` (`app.py:85-99`, `app.py:169-170`) are web plumbing.
- The `/api/products` and `/api/orders` listing endpoints (`app.py:92-99`, `app.py:152-167`) are read-only queries; their join and sort are done by the database.
- `get_db_connection` and the MySQL connector are replaced by `Store`'s in-memory tables, commit and rollback. Failures of the server are the `Faults` parameter, and they are modelled only on the workflow's three writes and their commits. The lookup queries, `rollback()` and `close()` are taken never to fail.
- Python's `int()` on the payload fields is not modelled: `Payload` holds, for each field, the converted integer or `None` where `int()` raised.
- `float(price)` and `round(price * quantity, 2)` are floating-point: prices and totals are integer cents, and the total is the exact product of price and quantity.
- `datetime.now()` becomes the `orderDate` parameter.
- Concurrent requests on the same product: there is no locking in the code, and each request here runs alone against the server state it is given. `update_stock` writes the in-memory snapshot minus the quantity rather than re-reading the row. The model keeps this (`DebitCommits` states the write in terms of the snapshot), but it does not model a second request interleaving.
- A rejected `INSERT` is taken to consume no auto-increment id. This is a simplification and differs from InnoDB, which can lose an id that a failing insert already generated; no property here depends on it. As in InnoDB, `rollback()` does not give an id back.
- Cursor and connection `close()` calls are resource handling. Closing is modelled only as discarding uncommitted writes.
- The `Customer` class (`app.py:23-28`) is a plain value, the `Customer` datatype, and the workflow never changes it.
