/**
 * Worked examples of the service, checked by the verifier: a table is provisioned, an order for one line
 * (catalog price 10, quantity 2) is created and read back, then its line is
 * deleted and the quantity returns to stock.
 */
module Scenarios {
  import opened Records
  import opened Pricing
  import opened Search
  import opened Service

  method CreateReadDelete()
  {
    var cola := Product(7, "Cola", "SKU-7", 10, 10, "drinks", "");
    var service := new OrderService(map[1 := User(1, "Alice")], map[7 := cola]);

    var provisioned := service.CreateTable("T1", 4, "available");
    assert provisioned == Returned(Reply(CREATED, None));

    // The client's quoted figures (99 each) are ignored.
    var line := OrderItem(7, 2, "no ice", "Cola", 99, 99);
    assert FirstUnresolved([line], service.catalog).None?;
    var created := service.CreateOrder(1, "T1", "alice@example.com", [line]);
    assert created.status == CREATED && created.id == Some(1);
    assert service.orders[1].items == [OrderItem(7, 2, "no ice", "Cola", 10, 20)];
    assert service.orders[1].totalPrice == 20;

    ReadBack(service);
    DeleteOnlyLine(service);
  }

  /** The stored order reads back at 20, and an order for an unknown table is refused. */
  method ReadBack(service: OrderService)
    requires service.Valid()
    requires service.users == map[1 := User(1, "Alice")]
    requires service.catalog == map[7 := Product(7, "Cola", "SKU-7", 10, 10, "drinks", "")]
    requires forall i :: 0 <= i < |service.tables| ==> service.tables[i].name == "T1"
    requires 1 in service.orders
    requires service.orders[1].items == [OrderItem(7, 2, "no ice", "Cola", 10, 20)]
    requires service.orders[1].totalPrice == 20
    modifies service
    ensures service.Valid()
    ensures service.orders == old(service.orders) && service.catalog == old(service.catalog)
  {
    var read := service.GetOrder(1);
    assert read.Returned? && read.reply.order.value.items[0].totalPrice == 20;

    var line := OrderItem(7, 2, "no ice", "Cola", 99, 99);
    var unknown := service.CreateOrder(1, "T2", "alice@example.com", [line]);
    assert unknown == CreateOrderReply(NOT_FOUND, Some(TableNameNotFound("T2")), None);
  }

  /** Deleting the only line of a 2 x 10 order gives 2 back to stock and brings the total to 0. */
  method DeleteOnlyLine(service: OrderService)
    requires service.Valid()
    requires service.catalog == map[7 := Product(7, "Cola", "SKU-7", 10, 10, "drinks", "")]
    requires 1 in service.orders
    requires service.orders[1].items == [OrderItem(7, 2, "no ice", "Cola", 10, 20)]
    requires service.orders[1].totalPrice == 20
    modifies service
  {
    var deleted := service.DeleteOrderItem(1, 7, OK);
    assert deleted == Reply(OK, None);
    assert service.orders[1].items == [] && service.orders[1].totalPrice == 0;
    assert service.catalog[7].stock == 12;
  }

  method RecordAndSearchSales()
  {
    var service := new OrderService(map[], map[]);
    var lines := [OrderItem(7, 2, "", "Cola", 10, 20)];
    var first := service.CreateSale("Alice", "T1", "2023-01-01", 2, 20, lines, "alice@example.com", DeliveryFailed);
    assert first == Returned(Reply(CREATED, None)) && |service.sales| == 1;
    var second := service.CreateSale("Bob", "T2", "2023-01-02", 1, 10, [], "bob@example.com", TokenRejected);
    assert second == Threw(MailTokenRejected) && |service.sales| == 1;
    var third := service.CreateSale("Bob", "T2", "2023-02-01", 1, 10, [], "bob@example.com", Delivered);
    assert |service.sales| == 2;
    SearchSales(service);
  }

  /** Searching the two recorded sales by a fragment of the user name and by month. */
  method SearchSales(service: OrderService)
    requires service.sales == [Sale("Alice", "T1", "2023-01-01", 2, 20, [OrderItem(7, 2, "", "Cola", 10, 20)]),
                               Sale("Bob", "T2", "2023-02-01", 1, 10, [])]
  {
    var alice := service.sales[0];
    var bob := service.sales[1];

    var found := service.GetSalesByUser("lic");
    assert OccursAt(alice.userName, "lic", 1);
    assert alice in found.sales;
    assert bob.userName == "Bob" && bob.userName[0] != "lic"[0];
    assert !Contains(bob.userName[1..], "lic");
    assert !Contains(bob.userName, "lic");
    assert bob !in found.sales;

    var january := service.GetSalesByDate("2023-01");
    assert OccursAt(alice.date, "2023-01", 0);
    assert alice in january.sales;
  }
}
