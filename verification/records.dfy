/**
 * The records the order service stores, receives and answers with.
 *
 * Status codes are the numeric HTTP statuses the service puts in its
 * replies; errors name the entity a failed step cites (the service writes
 * them as one-element message lists).
 */
module Records {

  const OK: int := 200
  const CREATED: int := 201
  const BAD_REQUEST: int := 400
  const NOT_FOUND: int := 404

  /** Subject line of the receipt mail sent when a sale is recorded. */
  const RECEIPT_SUBJECT: string := "Comprobante de pedido"

  datatype Option<T> = None | Some(value: T)

  /** A seating table: unique name, seat count, free-form state, the order it currently holds. */
  datatype Table = Table(id: int, name: string, quantity: int, state: string, activeOrderId: Option<int>)

  /** A catalog record as the product service returns it. */
  datatype Product = Product(id: int, name: string, sku: string, stock: int, price: int,
                             category: string, description: string)

  /** A user profile as the identity service returns it. */
  datatype User = User(id: int, name: string)

  /**
   * One order line. Requests carry the same shape; in a create or update request
   * `productName`, `pricePerUnit` and `totalPrice` are the client's and are ignored.
   */
  datatype OrderItem = OrderItem(productId: int, quantity: int, modifications: string,
                                 productName: string, pricePerUnit: int, totalPrice: int)

  /** A stored order; the table is held by reference (its id). */
  datatype Order = Order(id: int, userId: int, tableId: int, email: string,
                         items: seq<OrderItem>, totalPrice: int)

  /** A settled sale: denormalised names and a detached copy of the lines. */
  datatype Sale = Sale(userName: string, tableName: string, date: string, tip: int,
                       totalPrice: int, products: seq<OrderItem>)

  /** The order as `getOrder` and `getAllOrders` answer it. */
  datatype OrderView = OrderView(id: int, userId: int, table: Option<Table>, totalPrice: int,
                                 items: seq<OrderItem>, user: Option<User>, email: string)

  /** What a failed step cites. */
  datatype Error =
    | UserNotFound(userId: int)
    | TableNameNotFound(name: string)
    | TableIdNotFound(id: int)
    | OrderNotFound(orderId: int)
    | ProductNotFound(productId: int)
    | ProductNotInOrder(productId: int)
    | StockUpdateFailed(upstreamStatus: int)

  /** Exceptions the service does not catch; the caller sees a failed call. */
  datatype Fault =
    | DuplicateTableName(name: string)  // the unique constraint on the table name rejects the save
    | CatalogDataMissing(productId: int) // re-pricing reads the data of a failed catalog lookup
    | MailTokenRejected                  // the notifier could not obtain its access token

  /** A call either returns a reply or ends in an uncaught exception. */
  datatype Outcome<T> = Returned(reply: T) | Threw(fault: Fault)

  datatype Reply = Reply(status: int, error: Option<Error>)
  datatype CreateOrderReply = CreateOrderReply(status: int, error: Option<Error>, id: Option<int>)
  datatype TableReply = TableReply(status: int, error: Option<Error>, table: Option<Table>)
  datatype OrderReply = OrderReply(status: int, error: Option<Error>, order: Option<OrderView>)
  datatype UserReply = UserReply(status: int, error: Option<Error>, user: Option<User>)
  /** The reply of `getAllOrders`: every order, keyed by its id. */
  datatype OrdersReply = OrdersReply(status: int, error: Option<Error>, orders: map<int, OrderView>)
  datatype SalesReply = SalesReply(status: int, error: Option<Error>, sales: seq<Sale>)

  /** How the notifier fares: delivery errors are swallowed, a token failure is not. */
  datatype MailResult = Delivered | DeliveryFailed | TokenRejected

  /** One externally visible side effect, in the order the service issues them. */
  datatype Effect =
    | SaveTable(tableId: int)
    | SaveOrder(orderId: int)
    | RemoveItem(orderId: int, productId: int)
    | SetStock(productId: int, stock: int)  // the stock update requested, whether or not the catalog accepts it
    | SaveSale(index: nat)
    | Mailed(to: string, subject: string, sale: Sale)
}
