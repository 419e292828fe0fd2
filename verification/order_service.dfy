/**
 * The order workflow: tables, orders and sales over in-memory stores, checked
 * against an identity resolver (`users`) and a catalog (`catalog`).
 *
 * Every operation runs its checks in a fixed order and returns at the first
 * failure; persistence writes, catalog stock updates and receipt mails are
 * recorded, in issue order, in `effects`.
 */
module Service {
  import opened Records
  import opened Search
  import opened Pricing

  /** What resolving the lines of a create or update request yields. */
  datatype Resolution = Unresolved(productId: int) | Resolved(items: seq<OrderItem>, total: int)

  function HasName(name: string): Table -> bool
  {
    (t: Table) => t.name == name
  }

  function HasId(id: int): Table -> bool
  {
    (t: Table) => t.id == id
  }

  function ForProduct(productId: int): OrderItem -> bool
  {
    (item: OrderItem) => item.productId == productId
  }

  /** The row of the first table called `name` (the store's `findOne` by name). */
  function NameIndex(tables: seq<Table>, name: string): (k: Option<nat>)
    ensures k.Some? ==> k.value < |tables| && tables[k.value].name == name
    ensures k.None? <==> forall j :: 0 <= j < |tables| ==> tables[j].name != name
  {
    FirstIndex(tables, HasName(name))
  }

  /** The row of the first table with id `id` (the store's `findOne` by id). */
  function IdIndex(tables: seq<Table>, id: int): (k: Option<nat>)
    ensures k.Some? ==> k.value < |tables| && tables[k.value].id == id
    ensures k.None? <==> forall j :: 0 <= j < |tables| ==> tables[j].id != id
  {
    FirstIndex(tables, HasId(id))
  }

  /** The position of the first line for `productId` (the order lines' `findIndex`). */
  function LineIndex(items: seq<OrderItem>, productId: int): (k: Option<nat>)
    ensures k.Some? ==> k.value < |items| && items[k.value].productId == productId
    ensures k.Some? ==> forall j :: 0 <= j < k.value ==> items[j].productId != productId
    ensures k.None? <==> forall j :: 0 <= j < |items| ==> items[j].productId != productId
  {
    FirstIndex(items, ForProduct(productId))
  }

  /** Every order is stored under its own id, which is below the next id to hand out. */
  ghost predicate OrdersKeyed(orders: map<int, Order>, nextOrderId: int)
  {
    forall id :: id in orders ==> orders[id].id == id && id < nextOrderId
  }

  /** Every table id is below the next id to hand out, and no two tables share an id or a name. */
  ghost predicate TablesKeyed(tables: seq<Table>, nextTableId: int)
  {
    && (forall i :: 0 <= i < |tables| ==> tables[i].id < nextTableId)
    && (forall i, j :: 0 <= i < j < |tables| ==> tables[i].id != tables[j].id && tables[i].name != tables[j].name)
  }

  class OrderService {
    /** Table rows, in insertion order. */
    var tables: seq<Table>
    /** Orders by id, each holding its lines. */
    var orders: map<int, Order>
    /** Sale rows, in insertion order. */
    var sales: seq<Sale>
    /** The product service's records by product id. */
    var catalog: map<int, Product>
    /** The identity service: the users it answers OK for. */
    const users: map<int, User>
    /** The next ids the store hands out. */
    var nextTableId: int
    var nextOrderId: int
    /** Side effects issued so far. */
    var effects: seq<Effect>

    /** Orders are keyed by their own id and tables carry ids, all below the next id handed out; table names are unique. */
    ghost predicate Valid()
      reads this
    {
      OrdersKeyed(orders, nextOrderId) && TablesKeyed(tables, nextTableId)
    }

    constructor (users: map<int, User>, catalog: map<int, Product>)
      ensures Valid()
      ensures tables == [] && orders == map[] && sales == [] && effects == []
      ensures this.users == users && this.catalog == catalog
      ensures nextTableId == 1 && nextOrderId == 1
    {
      this.users := users;
      this.catalog := catalog;
      tables, orders, sales, effects := [], map[], [], [];
      nextTableId, nextOrderId := 1, 1;
    }

    /** The row index of the table called `name`, if any. */
    function TableNamed(name: string): Option<nat>
      reads this
    {
      NameIndex(tables, name)
    }

    /** The table with id `id`, if any. */
    function TableById(id: int): (r: Option<Table>)
      reads this
      ensures r.Some? ==> r.value in tables && r.value.id == id
      ensures r.None? <==> forall t :: t in tables ==> t.id != id
    {
      match IdIndex(tables, id)
      case None => None
      case Some(k) => Some(tables[k])
    }

    /** The identity service's answer, with a failed lookup as no user. */
    function UserOf(userId: int): (r: Option<User>)
      ensures r.Some? <==> userId in users
      ensures r.Some? ==> r.value == users[userId]
    {
      if userId in users then Some(users[userId]) else None
    }

    /** Provisions a table; the store's unique constraint rejects a name already in use. */
    method CreateTable(name: string, quantity: int, state: string) returns (r: Outcome<Reply>)
      requires Valid()
      modifies this
      ensures Valid()
      ensures orders == old(orders) && sales == old(sales) && catalog == old(catalog)
      ensures nextOrderId == old(nextOrderId)
      ensures old(TableNamed(name)).Some? ==>
        r == Threw(DuplicateTableName(name)) && tables == old(tables)
        && nextTableId == old(nextTableId) && effects == old(effects)
      ensures old(TableNamed(name)).None? ==>
        var id := old(nextTableId);
        && r == Returned(Reply(CREATED, None))
        && (forall t :: t in old(tables) ==> t.id != id)
        && tables == old(tables) + [Table(id, name, quantity, state, None)]
        && nextTableId == id + 1
        && effects == old(effects) + [SaveTable(id)]
    {
      if TableNamed(name).Some? {
        return Threw(DuplicateTableName(name));
      }
      var id := nextTableId;
      tables := tables + [Table(id, name, quantity, state, None)];
      nextTableId := nextTableId + 1;
      effects := effects + [SaveTable(id)];
      r := Returned(Reply(CREATED, None));
    }

    /** Looks a table up by its name. */
    method GetTablesByName(name: string) returns (r: TableReply)
      requires Valid()
      ensures r.status == OK <==> exists i :: 0 <= i < |tables| && tables[i].name == name
      ensures r.status == OK ==>
        r.error.None? && r.table.Some? && r.table.value in tables && r.table.value.name == name
        && forall i :: 0 <= i < |tables| && tables[i].name == name ==> tables[i] == r.table.value
      ensures r.status != OK ==> r == TableReply(NOT_FOUND, Some(TableNameNotFound(name)), None)
    {
      var k := TableNamed(name);
      if k.None? {
        return TableReply(NOT_FOUND, Some(TableNameNotFound(name)), None);
      }
      var t := tables[k.value];
      r := TableReply(OK, None, Some(Table(t.id, t.name, t.quantity, t.state, t.activeOrderId)));
    }

    /** Overwrites a table's seat count, state and active order; its id and name stay. */
    method UpdateTableState(id: int, quantity: int, state: string, activeOrderId: int) returns (r: Reply)
      requires Valid()
      modifies this
      ensures Valid()
      ensures orders == old(orders) && sales == old(sales) && catalog == old(catalog)
      ensures nextTableId == old(nextTableId) && nextOrderId == old(nextOrderId)
      ensures |tables| == |old(tables)|
      ensures IdIndex(old(tables), id).None? ==>
        r == Reply(NOT_FOUND, Some(TableIdNotFound(id))) && tables == old(tables) && effects == old(effects)
      ensures IdIndex(old(tables), id).Some? ==>
        var k := IdIndex(old(tables), id).value;
        && r == Reply(OK, None)
        && tables[k].id == id && tables[k].name == old(tables)[k].name
        && tables[k].quantity == quantity && tables[k].state == state
        && tables[k].activeOrderId == Some(activeOrderId)
        && (forall j :: 0 <= j < |tables| && j != k ==> tables[j] == old(tables)[j])
        && effects == old(effects) + [SaveTable(id)]
    {
      var k := IdIndex(tables, id);
      if k.None? {
        return Reply(NOT_FOUND, Some(TableIdNotFound(id)));
      }
      var t := tables[k.value];
      tables := tables[k.value := t.(quantity := quantity, state := state, activeOrderId := Some(activeOrderId))];
      effects := effects + [SaveTable(id)];
      r := Reply(OK, None);
    }

    /**
     * Prices the request lines one by one against the catalog, stopping at the
     * first line whose product it does not know.
     */
    method ResolveLines(lines: seq<OrderItem>) returns (r: Resolution)
      ensures FirstUnresolved(lines, catalog).Some? ==>
        r == Unresolved(lines[FirstUnresolved(lines, catalog).value].productId)
      ensures FirstUnresolved(lines, catalog).None? ==>
        r == Resolved(Priced(lines, catalog), LinesCost(lines, catalog))
    {
      var items: seq<OrderItem> := [];
      var total := 0;
      var i := 0;
      while i < |lines|
        invariant 0 <= i <= |lines|
        invariant AllInCatalog(lines[..i], catalog)
        invariant items == Priced(lines[..i], catalog)
        invariant total == ItemsTotal(items)
      {
        var line := lines[i];
        if line.productId !in catalog {
          return Unresolved(line.productId);
        }
        var item := Snapshot(line, catalog[line.productId]);
        assert lines[..i + 1] == lines[..i] + [line];
        assert (items + [item])[..|items + [item]| - 1] == items;
        items := items + [item];
        total := total + item.totalPrice;
        i := i + 1;
      }
      assert lines[..i] == lines;
      PricedTotalIsCost(lines, catalog);
      r := Resolved(items, total);
    }

    /**
     * Creates an order: the user is checked first, then the table, then each
     * line; nothing is saved unless every check passes, and then exactly once.
     */
    method CreateOrder(userId: int, nameTable: string, email: string, products: seq<OrderItem>)
      returns (r: CreateOrderReply)
      requires Valid()
      modifies this
      ensures Valid()
      ensures tables == old(tables) && sales == old(sales) && catalog == old(catalog)
      ensures nextTableId == old(nextTableId)
      ensures r.status != CREATED ==>
        orders == old(orders) && effects == old(effects) && nextOrderId == old(nextOrderId) && r.id.None?
      ensures userId !in users ==> r == CreateOrderReply(BAD_REQUEST, Some(UserNotFound(userId)), None)
      ensures userId in users && TableNamed(nameTable).None? ==>
        r == CreateOrderReply(NOT_FOUND, Some(TableNameNotFound(nameTable)), None)
      ensures userId in users && TableNamed(nameTable).Some? && FirstUnresolved(products, catalog).Some? ==>
        var k := FirstUnresolved(products, catalog).value;
        r == CreateOrderReply(BAD_REQUEST, Some(ProductNotFound(products[k].productId)), None)
      ensures userId in users && TableNamed(nameTable).Some? && FirstUnresolved(products, catalog).None? ==>
        var id := old(nextOrderId);
        var table := tables[TableNamed(nameTable).value];
        && id !in old(orders)
        && r == CreateOrderReply(CREATED, None, Some(id))
        && orders == old(orders)[id := Order(id, userId, table.id, email, Priced(products, catalog), LinesCost(products, catalog))]
        && Consistent(orders[id])
        && nextOrderId == id + 1
        && effects == old(effects) + [SaveOrder(id)]
    {
      if userId !in users {
        return CreateOrderReply(BAD_REQUEST, Some(UserNotFound(userId)), None);
      }
      var t := TableNamed(nameTable);
      if t.None? {
        return CreateOrderReply(NOT_FOUND, Some(TableNameNotFound(nameTable)), None);
      }
      var table := tables[t.value];
      var res := ResolveLines(products);
      if res.Unresolved? {
        return CreateOrderReply(BAD_REQUEST, Some(ProductNotFound(res.productId)), None);
      }
      PricedTotalIsCost(products, catalog);
      var id := nextOrderId;
      orders := orders[id := Order(id, userId, table.id, email, res.items, res.total)];
      nextOrderId := nextOrderId + 1;
      effects := effects + [SaveOrder(id)];
      r := CreateOrderReply(CREATED, None, Some(id));
    }

    /**
     * Replaces an existing order's user, table, email and every line, with the
     * total recomputed from scratch; the same checks as creation come first.
     */
    method UpdateOrder(orderId: int, userId: int, nameTable: string, email: string, products: seq<OrderItem>)
      returns (r: Reply)
      requires Valid()
      modifies this
      ensures Valid()
      ensures tables == old(tables) && sales == old(sales) && catalog == old(catalog)
      ensures nextTableId == old(nextTableId) && nextOrderId == old(nextOrderId)
      ensures r.status != CREATED ==> orders == old(orders) && effects == old(effects)
      ensures orderId !in old(orders) ==> r == Reply(NOT_FOUND, Some(OrderNotFound(orderId)))
      ensures orderId in old(orders) && userId !in users ==> r == Reply(BAD_REQUEST, Some(UserNotFound(userId)))
      ensures orderId in old(orders) && userId in users && TableNamed(nameTable).None? ==>
        r == Reply(NOT_FOUND, Some(TableNameNotFound(nameTable)))
      ensures (orderId in old(orders) && userId in users && TableNamed(nameTable).Some?
               && FirstUnresolved(products, catalog).Some?) ==>
        var k := FirstUnresolved(products, catalog).value;
        r == Reply(BAD_REQUEST, Some(ProductNotFound(products[k].productId)))
      ensures (orderId in old(orders) && userId in users && TableNamed(nameTable).Some?
               && FirstUnresolved(products, catalog).None?) ==>
        var table := tables[TableNamed(nameTable).value];
        && r == Reply(CREATED, None)
        && orders == old(orders)[orderId := Order(orderId, userId, table.id, email, Priced(products, catalog), LinesCost(products, catalog))]
        && Consistent(orders[orderId])
        && effects == old(effects) + [SaveOrder(orderId)]
    {
      if orderId !in orders {
        return Reply(NOT_FOUND, Some(OrderNotFound(orderId)));
      }
      if userId !in users {
        return Reply(BAD_REQUEST, Some(UserNotFound(userId)));
      }
      var t := TableNamed(nameTable);
      if t.None? {
        return Reply(NOT_FOUND, Some(TableNameNotFound(nameTable)));
      }
      var table := tables[t.value];
      var res := ResolveLines(products);
      if res.Unresolved? {
        return Reply(BAD_REQUEST, Some(ProductNotFound(res.productId)));
      }
      PricedTotalIsCost(products, catalog);
      orders := orders[orderId := Order(orderId, userId, table.id, email, res.items, res.total)];
      effects := effects + [SaveOrder(orderId)];
      r := Reply(CREATED, None);
    }

    /**
     * Reads one order, re-pricing every line against the current catalog; the
     * stored total is returned as it is, and a failed user lookup gives no user.
     */
    method GetOrder(orderId: int) returns (r: Outcome<OrderReply>)
      requires Valid()
      ensures orderId !in orders ==> r == Returned(OrderReply(NOT_FOUND, Some(OrderNotFound(orderId)), None))
      ensures orderId in orders && FirstUnresolved(orders[orderId].items, catalog).Some? ==>
        var o := orders[orderId];
        r == Threw(CatalogDataMissing(o.items[FirstUnresolved(o.items, catalog).value].productId))
      ensures orderId in orders && FirstUnresolved(orders[orderId].items, catalog).None? ==>
        var o := orders[orderId];
        && r.Returned? && r.reply.status == OK && r.reply.error.None? && r.reply.order.Some?
        && var v := r.reply.order.value;
        && v.id == orderId && v.userId == o.userId && v.email == o.email
        && v.table == TableById(o.tableId)
        && v.totalPrice == o.totalPrice
        && v.items == Priced(o.items, catalog)
        && v.user == UserOf(o.userId)
    {
      if orderId !in orders {
        return Returned(OrderReply(NOT_FOUND, Some(OrderNotFound(orderId)), None));
      }
      var o := orders[orderId];
      var user := UserOf(o.userId);
      var missing := FirstUnresolved(o.items, catalog);
      if missing.Some? {
        return Threw(CatalogDataMissing(o.items[missing.value].productId));
      }
      var view := OrderView(o.id, o.userId, TableById(o.tableId), o.totalPrice, Priced(o.items, catalog), user, o.email);
      r := Returned(OrderReply(OK, None, Some(view)));
    }

    /** Reads every order with its user attached; lines and totals are the stored ones. */
    method GetAllOrders() returns (r: OrdersReply)
      ensures r.status == OK && r.error.None?
      ensures r.orders.Keys == orders.Keys
      ensures forall id :: id in r.orders ==>
        var o := orders[id];
        r.orders[id] == OrderView(o.id, o.userId, TableById(o.tableId), o.totalPrice, o.items, UserOf(o.userId), o.email)
    {
      var views := map id | id in orders ::
        OrderView(orders[id].id, orders[id].userId, TableById(orders[id].tableId), orders[id].totalPrice,
                  orders[id].items, UserOf(orders[id].userId), orders[id].email);
      r := OrdersReply(OK, None, views);
    }

    /** Answers the identity service's record for a user. */
    method GetUser(userId: int) returns (r: UserReply)
      ensures userId in users ==> r == UserReply(OK, None, Some(users[userId]))
      ensures userId !in users ==> r == UserReply(BAD_REQUEST, Some(UserNotFound(userId)), None)
    {
      if userId !in users {
        return UserReply(BAD_REQUEST, Some(UserNotFound(userId)), None);
      }
      r := UserReply(OK, None, Some(users[userId]));
    }

    /** The sales whose serving user's name contains `userName`. */
    method GetSalesByUser(userName: string) returns (r: SalesReply)
      ensures r.status == OK && r.error.None?
      ensures forall s :: s in r.sales <==> s in sales && IsSubstring(userName, s.userName)
      ensures forall s :: multiset(r.sales)[s] == if IsSubstring(userName, s.userName) then multiset(sales)[s] else 0
      ensures multiset(r.sales) <= multiset(sales)
    {
      r := SalesReply(OK, None, Filter(sales, UserNameContains(userName)));
    }

    /** The sales whose date string contains `date`. */
    method GetSalesByDate(date: string) returns (r: SalesReply)
      ensures r.status == OK && r.error.None?
      ensures forall s :: s in r.sales <==> s in sales && IsSubstring(date, s.date)
      ensures forall s :: multiset(r.sales)[s] == if IsSubstring(date, s.date) then multiset(sales)[s] else 0
      ensures multiset(r.sales) <= multiset(sales)
    {
      r := SalesReply(OK, None, Filter(sales, DateContains(date)));
    }

    /**
     * Records a sale exactly as given, after mailing its receipt. A delivery
     * error is swallowed; a failure to obtain the mail token aborts before the save.
     */
    method CreateSale(userName: string, tableName: string, date: string, tip: int, totalPrice: int,
                      products: seq<OrderItem>, email: string, mail: MailResult)
      returns (r: Outcome<Reply>)
      requires Valid()
      modifies this
      ensures Valid()
      ensures tables == old(tables) && orders == old(orders) && catalog == old(catalog)
      ensures nextTableId == old(nextTableId) && nextOrderId == old(nextOrderId)
      ensures mail == TokenRejected ==>
        r == Threw(MailTokenRejected) && sales == old(sales) && effects == old(effects)
      ensures mail != TokenRejected ==>
        var sale := Sale(userName, tableName, date, tip, totalPrice, products);
        var sent := if mail == Delivered then [Mailed(email, RECEIPT_SUBJECT, sale)] else [];
        && r == Returned(Reply(CREATED, None))
        && sales == old(sales) + [sale]
        && effects == old(effects) + sent + [SaveSale(|old(sales)|)]
    {
      var sale := Sale(userName, tableName, date, tip, totalPrice, products);
      if mail == TokenRejected {
        return Threw(MailTokenRejected);
      }
      if mail == Delivered {
        effects := effects + [Mailed(email, RECEIPT_SUBJECT, sale)];
      }
      effects := effects + [SaveSale(|sales|)];
      sales := sales + [sale];
      r := Returned(Reply(CREATED, None));
    }

    /**
     * Removes the first line for `productId` from an order, gives its quantity
     * back to stock, then lowers the order total by the line's stored total.
     * `stockStatus` is the product service's answer to the stock update.
     */
    method DeleteOrderItem(orderId: int, productId: int, stockStatus: int) returns (r: Reply)
      requires Valid()
      modifies this
      ensures Valid()
      ensures tables == old(tables) && sales == old(sales)
      ensures nextTableId == old(nextTableId) && nextOrderId == old(nextOrderId)
      ensures orderId !in old(orders) ==>
        r == Reply(NOT_FOUND, Some(OrderNotFound(orderId)))
        && orders == old(orders) && catalog == old(catalog) && effects == old(effects)
      ensures (orderId in old(orders) && productId !in old(catalog)) ==>
        r == Reply(BAD_REQUEST, Some(ProductNotFound(productId)))
        && orders == old(orders) && catalog == old(catalog) && effects == old(effects)
      ensures (orderId in old(orders) && productId in old(catalog)
               && LineIndex(old(orders)[orderId].items, productId).None?) ==>
        r == Reply(NOT_FOUND, Some(ProductNotInOrder(productId)))
        && orders == old(orders) && catalog == old(catalog) && effects == old(effects)
      ensures (orderId in old(orders) && productId in old(catalog) && stockStatus != OK
               && LineIndex(old(orders)[orderId].items, productId).Some?) ==>
        var o := old(orders)[orderId];
        var k := LineIndex(o.items, productId).value;
        && r == Reply(stockStatus, Some(StockUpdateFailed(stockStatus)))
        && orders == old(orders)[orderId := o.(items := RemoveAt(o.items, k))]
        && catalog == old(catalog)
        && effects == old(effects) + [RemoveItem(orderId, productId), SetStock(productId, old(catalog)[productId].stock + o.items[k].quantity)]
      ensures (orderId in old(orders) && productId in old(catalog) && stockStatus == OK
               && LineIndex(old(orders)[orderId].items, productId).Some?) ==>
        var o := old(orders)[orderId];
        var k := LineIndex(o.items, productId).value;
        var item := o.items[k];
        var p := old(catalog)[productId];
        && r == Reply(OK, None)
        && orders == old(orders)[orderId := o.(items := RemoveAt(o.items, k), totalPrice := o.totalPrice - item.totalPrice)]
        && (Consistent(o) ==> Consistent(orders[orderId]))
        && catalog == old(catalog)[productId := p.(stock := p.stock + item.quantity)]
        && effects == old(effects) + [RemoveItem(orderId, productId), SetStock(productId, p.stock + item.quantity),
                                      SaveOrder(orderId)]
    {
      if orderId !in orders {
        return Reply(NOT_FOUND, Some(OrderNotFound(orderId)));
      }
      var o := orders[orderId];
      if productId !in catalog {
        return Reply(BAD_REQUEST, Some(ProductNotFound(productId)));
      }
      var product := catalog[productId];
      var found := LineIndex(o.items, productId);
      if found.None? {
        return Reply(NOT_FOUND, Some(ProductNotInOrder(productId)));
      }
      var k := found.value;
      var item := o.items[k];
      var remaining := RemoveAt(o.items, k);
      var stock := product.stock + item.quantity;
      if stockStatus != OK {
        // The line is already deleted from storage; the order itself is not saved.
        orders := orders[orderId := o.(items := remaining)];
        effects := effects + [RemoveItem(orderId, productId), SetStock(productId, stock)];
        return Reply(stockStatus, Some(StockUpdateFailed(stockStatus)));
      }
      if Consistent(o) {
        DeletionKeepsConsistent(o, k);
      }
      catalog := catalog[productId := product.(stock := stock)];
      orders := orders[orderId := o.(items := remaining, totalPrice := o.totalPrice - item.totalPrice)];
      effects := effects + [RemoveItem(orderId, productId), SetStock(productId, stock), SaveOrder(orderId)];
      r := Reply(OK, None);
    }
  }
}
