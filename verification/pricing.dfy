/**
 * Line pricing and order totals: the snapshot a line takes from the catalog,
 * the sum that makes an order's total, and what removing one line does to it.
 */
module Pricing {
  import opened Records
  import opened Search

  /** The line as stored: request fields kept, name and unit price from the catalog, total = price * quantity. */
  function Snapshot(line: OrderItem, p: Product): (r: OrderItem)
    ensures r.productId == line.productId && r.quantity == line.quantity && r.modifications == line.modifications
    ensures r.productName == p.name && r.pricePerUnit == p.price
    ensures r.totalPrice == r.pricePerUnit * r.quantity
  {
    OrderItem(line.productId, line.quantity, line.modifications, p.name, p.price, p.price * line.quantity)
  }

  /** Selects a line whose product the catalog does not know. */
  function NotInCatalog(catalog: map<int, Product>): OrderItem -> bool
  {
    (line: OrderItem) => line.productId !in catalog
  }

  /** Every line's product resolves in the catalog. */
  predicate AllInCatalog(lines: seq<OrderItem>, catalog: map<int, Product>)
  {
    forall i :: 0 <= i < |lines| ==> lines[i].productId in catalog
  }

  /** The first line whose product the catalog does not know, if any. */
  function FirstUnresolved(lines: seq<OrderItem>, catalog: map<int, Product>): (k: Option<nat>)
    ensures k.None? <==> AllInCatalog(lines, catalog)
    ensures k.Some? ==> k.value < |lines| && lines[k.value].productId !in catalog
    ensures k.Some? ==> AllInCatalog(lines[..k.value], catalog)
  {
    FirstIndex(lines, NotInCatalog(catalog))
  }

  /** Every line priced against the catalog, in request order. */
  function Priced(lines: seq<OrderItem>, catalog: map<int, Product>): (r: seq<OrderItem>)
    requires AllInCatalog(lines, catalog)
    ensures |r| == |lines|
  {
    seq(|lines|, i requires 0 <= i < |lines| => Snapshot(lines[i], catalog[lines[i].productId]))
  }

  /** The sum of the line totals. */
  function ItemsTotal(items: seq<OrderItem>): (t: int)
    ensures |items| == 1 ==> t == items[0].totalPrice
  {
    if |items| == 0 then 0 else ItemsTotal(items[..|items| - 1]) + items[|items| - 1].totalPrice
  }

  /** Each priced line keeps its request's product and quantity and costs the catalog price times that quantity. */
  lemma PricedLines(lines: seq<OrderItem>, catalog: map<int, Product>)
    requires AllInCatalog(lines, catalog)
    ensures forall i :: 0 <= i < |lines| ==>
      var r := Priced(lines, catalog)[i];
      && r.productId == lines[i].productId && r.quantity == lines[i].quantity
      && r.modifications == lines[i].modifications
      && r.pricePerUnit == catalog[lines[i].productId].price
      && r.totalPrice == r.pricePerUnit * r.quantity
  {
  }

  /** An order whose lines all have non-negative totals has a non-negative total. */
  lemma {:induction false} ItemsTotalNonNegative(items: seq<OrderItem>)
    requires forall i :: 0 <= i < |items| ==> items[i].totalPrice >= 0
    ensures ItemsTotal(items) >= 0
    decreases |items|
  {
    if |items| > 0 {
      ItemsTotalNonNegative(items[..|items| - 1]);
    }
  }

  /** Reference cost of a request, from catalog price and requested quantity only. */
  function LinesCost(lines: seq<OrderItem>, catalog: map<int, Product>): int
    requires AllInCatalog(lines, catalog)
  {
    if |lines| == 0 then 0
    else LinesCost(lines[1..], catalog) + catalog[lines[0].productId].price * lines[0].quantity
  }

  /** The order's stored total agrees with its lines. */
  predicate Consistent(o: Order)
  {
    o.totalPrice == ItemsTotal(o.items)
  }

  /** The lines with the one at `k` spliced out. */
  function RemoveAt(items: seq<OrderItem>, k: nat): (r: seq<OrderItem>)
    requires k < |items|
    ensures |r| == |items| - 1
  {
    items[..k] + items[k + 1..]
  }

  /**
   * Splicing keeps every other line, in its relative order, and loses exactly
   * the line at `k`.
   */
  lemma RemoveAtKeepsOthers(items: seq<OrderItem>, k: nat)
    requires k < |items|
    ensures |RemoveAt(items, k)| == |items| - 1
    ensures forall j :: 0 <= j < k ==> RemoveAt(items, k)[j] == items[j]
    ensures forall j :: k <= j < |items| - 1 ==> RemoveAt(items, k)[j] == items[j + 1]
    ensures multiset(RemoveAt(items, k)) + multiset{items[k]} == multiset(items)
  {
    assert items == items[..k] + [items[k]] + items[k + 1..];
  }

  lemma {:induction false} ItemsTotalConcat(a: seq<OrderItem>, b: seq<OrderItem>)
    ensures ItemsTotal(a + b) == ItemsTotal(a) + ItemsTotal(b)
    decreases |b|
  {
    if |b| == 0 {
      assert a + b == a;
    } else {
      var n := |b| - 1;
      assert (a + b)[..|a + b| - 1] == a + b[..n];
      ItemsTotalConcat(a, b[..n]);
    }
  }

  /** Removing a line lowers the sum of line totals by exactly that line's total. */
  lemma RemoveAtTotal(items: seq<OrderItem>, k: nat)
    requires k < |items|
    ensures ItemsTotal(RemoveAt(items, k)) == ItemsTotal(items) - items[k].totalPrice
  {
    var front, back := items[..k], items[k + 1..];
    SplitTotal(items, k);
    ItemsTotalConcat(front, back);
    assert RemoveAt(items, k) == front + back;
  }

  lemma SplitTotal(items: seq<OrderItem>, k: nat)
    requires k < |items|
    ensures ItemsTotal(items) == ItemsTotal(items[..k]) + items[k].totalPrice + ItemsTotal(items[k + 1..])
  {
    var upTo := items[..k + 1];
    assert upTo[..|upTo| - 1] == items[..k];
    assert upTo + items[k + 1..] == items;
    ItemsTotalConcat(upTo, items[k + 1..]);
  }

  /** The priced total of a request is its reference cost at the catalog's prices. */
  lemma {:induction false} PricedTotalIsCost(lines: seq<OrderItem>, catalog: map<int, Product>)
    requires AllInCatalog(lines, catalog)
    ensures ItemsTotal(Priced(lines, catalog)) == LinesCost(lines, catalog)
    decreases |lines|
  {
    if |lines| > 0 {
      var rest := lines[1..];
      PricedTotalIsCost(rest, catalog);
      var head := Snapshot(lines[0], catalog[lines[0].productId]);
      assert Priced(lines, catalog) == [head] + Priced(rest, catalog);
      ItemsTotalConcat([head], Priced(rest, catalog));
      assert ItemsTotal([head]) == head.totalPrice by {
        assert [head][..0] == [];
      }
    }
  }

  /** Two requests that agree on product, quantity and note are priced alike, whatever prices they quote. */
  lemma PricingIgnoresClientFigures(a: seq<OrderItem>, b: seq<OrderItem>, catalog: map<int, Product>)
    requires AllInCatalog(a, catalog)
    requires |a| == |b|
    requires forall i :: 0 <= i < |a| ==>
      a[i].productId == b[i].productId && a[i].quantity == b[i].quantity
      && a[i].modifications == b[i].modifications
    ensures AllInCatalog(b, catalog)
    ensures Priced(a, catalog) == Priced(b, catalog)
  {
  }

  /** Re-pricing stored lines against the catalog they were priced with changes nothing. */
  lemma RepriceUnchangedCatalog(lines: seq<OrderItem>, catalog: map<int, Product>)
    requires AllInCatalog(lines, catalog)
    ensures AllInCatalog(Priced(lines, catalog), catalog)
    ensures Priced(Priced(lines, catalog), catalog) == Priced(lines, catalog)
  {
  }

  /**
   * Reading re-prices stored lines: whatever catalog priced them, the lines read
   * back cost what the current catalog says, not what was stored.
   */
  lemma RepricedLinesFollowCurrentCatalog(lines: seq<OrderItem>, before: map<int, Product>, now: map<int, Product>)
    requires AllInCatalog(lines, before) && AllInCatalog(lines, now)
    ensures AllInCatalog(Priced(lines, before), now)
    ensures Priced(Priced(lines, before), now) == Priced(lines, now)
    ensures ItemsTotal(Priced(Priced(lines, before), now)) == LinesCost(lines, now)
  {
    PricedTotalIsCost(lines, now);
  }

  /** A successful item deletion keeps an order whose total agreed with its lines in agreement. */
  lemma DeletionKeepsConsistent(o: Order, k: nat)
    requires k < |o.items| && Consistent(o)
    ensures Consistent(o.(items := RemoveAt(o.items, k), totalPrice := o.totalPrice - o.items[k].totalPrice))
  {
    RemoveAtTotal(o.items, k);
  }

  /**
   * When the stock update fails the line is gone but the total is not lowered:
   * unless the removed line was free, the order no longer agrees with its lines.
   */
  lemma StockFailureLeavesStaleTotal(o: Order, k: nat)
    requires k < |o.items| && Consistent(o) && o.items[k].totalPrice != 0
    ensures !Consistent(o.(items := RemoveAt(o.items, k)))
  {
    RemoveAtTotal(o.items, k);
  }
}
