/**
  Order placement (`OrderSerializer.create` in api/serializers.py): a
  validation pass over the requested lines that also prices them, then a
  commit pass that records the order and its items and decrements stock.

  Each requested line carries its own copy of the product, fetched when the
  request was deserialized; the commit writes that copy's stock minus the
  line's quantity back to the store. `Committed` models exactly that, so two
  lines naming the same product do not add up (the later write wins).
 */
module Orders {
  import opened Permissions
  import opened Catalog

  type OrderId = nat

  /** One requested line: a product and how many of it. */
  datatype Line = Line(product: ProductId, quantity: int)

  /** Later statuses of the order lifecycle are not part of this model. */
  datatype OrderStatus = Pending

  datatype Order = Order(id: OrderId, customer: UserId, totalPrice: int, status: OrderStatus)

  /** A line of a stored order; `price` is the product price frozen at creation. */
  datatype OrderItem = OrderItem(order: OrderId, product: ProductId, quantity: int, price: int)

  /** What `create` does: return the new order, or raise the insufficient-stock
      validation error, which names the product. */
  datatype Placement = Placed(order: OrderId) | InsufficientStock(productName: string)

  predicate Resolvable(lines: seq<Line>, products: map<ProductId, Product>) {
    forall i :: 0 <= i < |lines| ==> lines[i].product in products
  }

  /** The per-line check of the validation pass: the product's stock is not
      below the line's quantity. */
  predicate InStock(line: Line, products: map<ProductId, Product>)
    requires line.product in products
  {
    !(products[line.product].stock < line.quantity)
  }

  predicate AllInStock(lines: seq<Line>, products: map<ProductId, Product>)
    requires Resolvable(lines, products)
  {
    forall i :: 0 <= i < |lines| ==> InStock(lines[i], products)
  }

  /** No product is named by two lines. */
  predicate DistinctProducts(lines: seq<Line>) {
    forall i, j :: 0 <= i < j < |lines| ==> lines[i].product != lines[j].product
  }

  predicate Names(lines: seq<Line>, id: ProductId) {
    exists i :: 0 <= i < |lines| && lines[i].product == id
  }

  /** The index of the line the validation pass stops at: the first line whose
      product is short, or |lines| when none is. */
  function FirstShortage(lines: seq<Line>, products: map<ProductId, Product>): (k: nat)
    requires Resolvable(lines, products)
    ensures k <= |lines|
    ensures forall i :: 0 <= i < k ==> InStock(lines[i], products)
    ensures k < |lines| ==> !InStock(lines[k], products)
    ensures k == |lines| <==> AllInStock(lines, products)
    decreases |lines|
  {
    if |lines| == 0 then 0
    else if !InStock(lines[0], products) then 0
    else
      var rest := FirstShortage(lines[1..], products);
      assert forall i :: 0 <= i < rest ==> InStock(lines[1..][i], products);
      1 + rest
  }

  /** The order total: the sum of price times quantity over the lines, from 0. */
  function Total(lines: seq<Line>, products: map<ProductId, Product>): int
    requires Resolvable(lines, products)
  {
    if |lines| == 0 then 0
    else
      var line := lines[|lines| - 1];
      Total(lines[..|lines| - 1], products) + products[line.product].price * line.quantity
  }

  /** The items the commit pass creates for order `order`, in request order. */
  function ItemsFor(order: OrderId, lines: seq<Line>, products: map<ProductId, Product>): (items: seq<OrderItem>)
    requires Resolvable(lines, products)
    ensures |items| == |lines|
  {
    if |lines| == 0 then []
    else
      var line := lines[|lines| - 1];
      ItemsFor(order, lines[..|lines| - 1], products)
        + [OrderItem(order, line.product, line.quantity, products[line.product].price)]
  }

  /** One item per line, in request order, with the line's product and
      quantity and the product's price at creation. */
  lemma {:induction false} ItemsForLines(order: OrderId, lines: seq<Line>, products: map<ProductId, Product>)
    requires Resolvable(lines, products)
    ensures forall i :: 0 <= i < |lines| ==>
              ItemsFor(order, lines, products)[i]
              == OrderItem(order, lines[i].product, lines[i].quantity, products[lines[i].product].price)
  {
    if |lines| > 0 {
      var prefix := lines[..|lines| - 1];
      ItemsForLines(order, prefix, products);
      forall i | 0 <= i < |prefix| ensures prefix[i] == lines[i] { }
    }
  }

  /** The sum of price times quantity over stored items. */
  function SumItems(items: seq<OrderItem>): int {
    if |items| == 0 then 0
    else
      var item := items[|items| - 1];
      SumItems(items[..|items| - 1]) + item.price * item.quantity
  }

  /** The items of one order, in the order they were stored. */
  function ItemsOf(items: seq<OrderItem>, order: OrderId): (r: seq<OrderItem>)
    ensures forall k :: 0 <= k < |r| ==> r[k].order == order && r[k] in items
  {
    if |items| == 0 then []
    else
      var item := items[|items| - 1];
      var rest := ItemsOf(items[..|items| - 1], order);
      if item.order == order then rest + [item] else rest
  }

  predicate SameExceptStock(a: Product, b: Product) {
    a.name == b.name && a.description == b.description && a.price == b.price
  }

  /** The products after the commit pass: for each line in turn, its product
      is saved with the stock of the copy fetched for that line minus the
      line's quantity. Only stock changes, and only for named products. */
  function Committed(snapshot: map<ProductId, Product>, lines: seq<Line>): (after: map<ProductId, Product>)
    requires Resolvable(lines, snapshot)
    ensures after.Keys == snapshot.Keys
  {
    if |lines| == 0 then snapshot
    else
      var line := lines[|lines| - 1];
      var product := snapshot[line.product];
      Committed(snapshot, lines[..|lines| - 1])[line.product := product.(stock := product.stock - line.quantity)]
  }

  /** The commit pass changes no product's name, description or price, adds
      or removes no product, and leaves every product no line names as it was. */
  lemma {:induction false} CommittedFrame(snapshot: map<ProductId, Product>, lines: seq<Line>)
    requires Resolvable(lines, snapshot)
    ensures forall id :: id in snapshot ==> SameExceptStock(Committed(snapshot, lines)[id], snapshot[id])
    ensures forall id :: id in snapshot && !Names(lines, id) ==> Committed(snapshot, lines)[id] == snapshot[id]
  {
    if |lines| > 0 {
      var prefix := lines[..|lines| - 1];
      CommittedFrame(snapshot, prefix);
      assert forall id :: Names(prefix, id) ==> Names(lines, id);
    }
  }

  /** Pricing: the order total is the sum of price times quantity over the
      items created for it. */
  lemma {:induction false} TotalIsSumOfItems(order: OrderId, lines: seq<Line>, products: map<ProductId, Product>)
    requires Resolvable(lines, products)
    ensures Total(lines, products) == SumItems(ItemsFor(order, lines, products))
  {
    if |lines| > 0 {
      var prefix := lines[..|lines| - 1];
      var items := ItemsFor(order, lines, products);
      TotalIsSumOfItems(order, prefix, products);
      assert items[..|items| - 1] == ItemsFor(order, prefix, products);
    }
  }

  /** The stock a product ends with is decided by the last line naming it:
      that line's copy of the stock minus that line's quantity. */
  lemma {:induction false} CommittedLastWrite(snapshot: map<ProductId, Product>, lines: seq<Line>, i: nat)
    requires Resolvable(lines, snapshot)
    requires i < |lines|
    requires forall j :: i < j < |lines| ==> lines[j].product != lines[i].product
    ensures Committed(snapshot, lines)[lines[i].product].stock
            == snapshot[lines[i].product].stock - lines[i].quantity
  {
    if i < |lines| - 1 {
      var prefix := lines[..|lines| - 1];
      assert prefix[i] == lines[i];
      CommittedLastWrite(snapshot, prefix, i);
    }
  }

  /** With distinct products, each named product's stock falls by exactly its
      line's quantity. */
  lemma CommittedDistinct(snapshot: map<ProductId, Product>, lines: seq<Line>)
    requires Resolvable(lines, snapshot)
    requires DistinctProducts(lines)
    ensures forall i :: 0 <= i < |lines| ==>
              Committed(snapshot, lines)[lines[i].product].stock
              == snapshot[lines[i].product].stock - lines[i].quantity
  {
    forall i | 0 <= i < |lines|
      ensures Committed(snapshot, lines)[lines[i].product].stock
              == snapshot[lines[i].product].stock - lines[i].quantity
    {
      CommittedLastWrite(snapshot, lines, i);
    }
  }

  /** After a validated commit every product still has a positive price and a
      non-negative stock. */
  lemma {:induction false} CommittedKeepsCatalogValid(snapshot: map<ProductId, Product>, lines: seq<Line>)
    requires Resolvable(lines, snapshot)
    requires AllInStock(lines, snapshot)
    requires CatalogValid(snapshot)
    ensures CatalogValid(Committed(snapshot, lines))
  {
    if |lines| > 0 {
      var prefix := lines[..|lines| - 1];
      assert AllInStock(prefix, snapshot) by {
        forall i | 0 <= i < |prefix| ensures InStock(prefix[i], snapshot) {
          assert prefix[i] == lines[i];
        }
      }
      CommittedKeepsCatalogValid(snapshot, prefix);
      assert InStock(lines[|lines| - 1], snapshot);
    }
  }

  lemma {:induction false} ItemsOfAppend(a: seq<OrderItem>, b: seq<OrderItem>, order: OrderId)
    ensures ItemsOf(a + b, order) == ItemsOf(a, order) + ItemsOf(b, order)
    decreases |b|
  {
    if |b| > 0 {
      var b' := b[..|b| - 1];
      assert (a + b)[..|a + b| - 1] == a + b';
      ItemsOfAppend(a, b', order);
    } else {
      assert a + b == a;
    }
  }

  lemma {:induction false} ItemsOfNone(items: seq<OrderItem>, order: OrderId)
    requires forall k :: 0 <= k < |items| ==> items[k].order != order
    ensures ItemsOf(items, order) == []
  {
    if |items| > 0 {
      ItemsOfNone(items[..|items| - 1], order);
    }
  }

  lemma {:induction false} ItemsOfAll(items: seq<OrderItem>, order: OrderId)
    requires forall k :: 0 <= k < |items| ==> items[k].order == order
    ensures ItemsOf(items, order) == items
  {
    if |items| > 0 {
      ItemsOfAll(items[..|items| - 1], order);
    }
  }

  /** Orders are numbered 1, 2, ... in creation order. */
  predicate OrdersNumbered(orders: seq<Order>) {
    forall k :: 0 <= k < |orders| ==> orders[k].id == k + 1
  }

  /** Every item belongs to a stored order, names a stored product and has a
      positive quantity. */
  predicate ItemsLinked(items: seq<OrderItem>, orderCount: nat, products: map<ProductId, Product>) {
    forall k :: 0 <= k < |items| ==>
      1 <= items[k].order <= orderCount && items[k].product in products && items[k].quantity > 0
  }

  /** Every order's total equals the sum of price times quantity over its items. */
  predicate PricesConsistent(orders: seq<Order>, items: seq<OrderItem>) {
    forall k :: 0 <= k < |orders| ==> orders[k].totalPrice == SumItems(ItemsOf(items, orders[k].id))
  }

  /** Adding items of a new order leaves the items of every other order as they were. */
  lemma ItemsOfUnaffected(items: seq<OrderItem>, added: seq<OrderItem>, newId: OrderId)
    requires forall k :: 0 <= k < |added| ==> added[k].order == newId
    ensures forall id :: id != newId ==> ItemsOf(items + added, id) == ItemsOf(items, id)
  {
    forall id | id != newId
      ensures ItemsOf(items + added, id) == ItemsOf(items, id)
    {
      ItemsOfAppend(items, added, id);
      ItemsOfNone(added, id);
      assert ItemsOf(items, id) + [] == ItemsOf(items, id);
    }
  }

  /** The items of a fresh order are exactly the ones added for it. */
  lemma ItemsOfFresh(items: seq<OrderItem>, added: seq<OrderItem>, newId: OrderId)
    requires forall k :: 0 <= k < |items| ==> items[k].order < newId
    requires forall k :: 0 <= k < |added| ==> added[k].order == newId
    ensures ItemsOf(items + added, newId) == added
  {
    ItemsOfAppend(items, added, newId);
    ItemsOfNone(items, newId);
    ItemsOfAll(added, newId);
    assert [] + added == added;
  }

  /** Appending a new order with its own items keeps every total consistent. */
  lemma PlacementKeepsPrices(orders: seq<Order>, items: seq<OrderItem>, order: Order, added: seq<OrderItem>)
    requires OrdersNumbered(orders)
    requires forall k :: 0 <= k < |items| ==> items[k].order <= |orders|
    requires PricesConsistent(orders, items)
    requires order.id == |orders| + 1
    requires forall k :: 0 <= k < |added| ==> added[k].order == order.id
    requires order.totalPrice == SumItems(added)
    ensures PricesConsistent(orders + [order], items + added)
  {
    ItemsOfUnaffected(items, added, order.id);
    ItemsOfFresh(items, added, order.id);
  }

  /** One more line of the commit pass: one more item, one more save. */
  lemma CommitStep(order: OrderId, snapshot: map<ProductId, Product>, lines: seq<Line>, i: nat)
    requires Resolvable(lines, snapshot)
    requires i < |lines|
    ensures var line := lines[i];
            var product := snapshot[line.product];
            && ItemsFor(order, lines[..i + 1], snapshot)
               == ItemsFor(order, lines[..i], snapshot) + [OrderItem(order, line.product, line.quantity, product.price)]
            && Committed(snapshot, lines[..i + 1])
               == Committed(snapshot, lines[..i])[line.product := product.(stock := product.stock - line.quantity)]
  {
    assert lines[..i + 1][..i] == lines[..i];
  }

  /** The store invariant, over the store's four fields. */
  predicate StoreValid(products: map<ProductId, Product>, nextProduct: ProductId,
                       orders: seq<Order>, items: seq<OrderItem>)
  {
    && CatalogValid(products)
    && (forall id :: id in products ==> id < nextProduct)
    && OrdersNumbered(orders)
    && ItemsLinked(items, |orders|, products)
    && PricesConsistent(orders, items)
  }

  /** New items that point at the new order, at stored products and carry
      positive quantities keep every item linked. */
  lemma PlacementKeepsLinks(items: seq<OrderItem>, orderCount: nat, products: map<ProductId, Product>,
                            after: map<ProductId, Product>, added: seq<OrderItem>)
    requires ItemsLinked(items, orderCount, products)
    requires after.Keys == products.Keys
    requires forall k :: 0 <= k < |added| ==>
               added[k].order == orderCount + 1 && added[k].product in products && added[k].quantity > 0
    ensures ItemsLinked(items + added, orderCount + 1, after)
  {
    var items' := items + added;
    forall k | 0 <= k < |items'|
      ensures 1 <= items'[k].order <= orderCount + 1 && items'[k].product in after && items'[k].quantity > 0
    {
      if k >= |items| {
        assert items'[k] == added[k - |items|];
      }
    }
  }

  lemma NumberedAppend(orders: seq<Order>, order: Order)
    requires OrdersNumbered(orders)
    requires order.id == |orders| + 1
    ensures OrdersNumbered(orders + [order])
  {
    var orders' := orders + [order];
    forall k | 0 <= k < |orders'| ensures orders'[k].id == k + 1 {
      if k < |orders| {
        assert orders'[k] == orders[k];
      }
    }
  }

  /** Placing an order keeps every part of the store invariant: the catalog
      stays valid, orders stay numbered, the new items link to the new order
      and every total matches its items. */
  lemma PlacementKeepsStore(products: map<ProductId, Product>, nextProduct: ProductId,
                            orders: seq<Order>, items: seq<OrderItem>,
                            customer: UserId, lines: seq<Line>)
    requires StoreValid(products, nextProduct, orders, items)
    requires Resolvable(lines, products)
    requires AllInStock(lines, products)
    requires forall i :: 0 <= i < |lines| ==> lines[i].quantity > 0
    ensures StoreValid(Committed(products, lines), nextProduct,
                       orders + [Order(|orders| + 1, customer, Total(lines, products), Pending)],
                       items + ItemsFor(|orders| + 1, lines, products))
  {
    var id := |orders| + 1;
    var order := Order(id, customer, Total(lines, products), Pending);
    var added := ItemsFor(id, lines, products);
    var after := Committed(products, lines);
    assert CatalogValid(after) by {
      CommittedKeepsCatalogValid(products, lines);
    }
    assert forall k :: 0 <= k < |added| ==> added[k].order == id by {
      ItemsForLines(id, lines, products);
    }
    assert PricesConsistent(orders + [order], items + added) by {
      TotalIsSumOfItems(id, lines, products);
      PlacementKeepsPrices(orders, items, order, added);
    }
    assert ItemsLinked(items + added, |orders| + 1, after) by {
      ItemsForLines(id, lines, products);
      PlacementKeepsLinks(items, |orders|, products, after, added);
    }
    assert OrdersNumbered(orders + [order]) by {
      NumberedAppend(orders, order);
    }
  }

  /** The scenario of a stock of 100 at 99.99: two units cost 199.98 and leave
      98; a request for 101 fails the stock check. */
  lemma PlacementScenario()
    ensures var products := map[1 := Product("Test Product", "Test Description", 9999, 100)];
            && Total([Line(1, 2)], products) == 19998
            && Committed(products, [Line(1, 2)])[1].stock == 98
            && !AllInStock([Line(1, 101)], products)
  {
    var products := map[1 := Product("Test Product", "Test Description", 9999, 100)];
    assert [Line(1, 2)][..0] == [];
    assert !InStock([Line(1, 101)][0], products);
  }

  /** Two lines of 60 against a stock of 100 both pass the per-line check,
      120 units are ordered, and the stock ends at 40: the second write
      overwrites the first. */
  lemma RepeatedProductLosesUpdate()
    ensures var products := map[1 := Product("P", "", 100, 100)];
            var lines := [Line(1, 60), Line(1, 60)];
            && AllInStock(lines, products)
            && Committed(products, lines)[1].stock == 40
            && lines[0].quantity + lines[1].quantity > products[1].stock
  {
    var products := map[1 := Product("P", "", 100, 100)];
    var lines := [Line(1, 60), Line(1, 60)];
    CommittedLastWrite(products, lines, 1);
  }

  /** The loop of the commit pass over the copies in `snapshot`: for each
      line, the item it creates for order `order`, and the product copy saved
      with the line's quantity taken off its stock. */
  method CommitLines(order: OrderId, snapshot: map<ProductId, Product>, lines: seq<Line>)
    returns (created: seq<OrderItem>, saved: map<ProductId, Product>)
    requires Resolvable(lines, snapshot)
    ensures created == ItemsFor(order, lines, snapshot)
    ensures saved == Committed(snapshot, lines)
  {
    created, saved := [], snapshot;
    var i := 0;
    while i < |lines|
      invariant 0 <= i <= |lines|
      invariant created == ItemsFor(order, lines[..i], snapshot)
      invariant saved == Committed(snapshot, lines[..i])
    {
      var line := lines[i];
      var product := snapshot[line.product];
      CommitStep(order, snapshot, lines, i);
      created := created + [OrderItem(order, line.product, line.quantity, product.price)];
      saved := saved[line.product := product.(stock := product.stock - line.quantity)];
      i := i + 1;
    }
    assert lines[..i] == lines;
  }

  /** The persistent store: products by id, and orders and items in creation
      order. */
  class Store {
    var products: map<ProductId, Product>
    var nextProduct: ProductId
    var orders: seq<Order>
    var items: seq<OrderItem>

    ghost predicate Valid()
      reads this
    {
      StoreValid(products, nextProduct, orders, items)
    }

    constructor ()
      ensures Valid()
      ensures products == map[] && orders == [] && items == []
    {
      products := map[];
      nextProduct := 1;
      orders := [];
      items := [];
    }

    /** Saves a product whose fields passed validation under a fresh id. */
    method AddProduct(fields: ProductFields) returns (id: ProductId)
      requires Valid()
      requires ProductErrors(fields) == map[]
      modifies this
      ensures Valid()
      ensures id !in old(products)
      ensures products == old(products)[id := FromFields(fields)]
      ensures orders == old(orders) && items == old(items)
    {
      id := nextProduct;
      products := products[id := FromFields(fields)];
      nextProduct := nextProduct + 1;
    }

    /** The validation pass of `OrderSerializer.create`: walks the lines,
      stops at the first one whose product is short, and prices every line
      before it. Reads the store and changes nothing. */
    method CheckLines(lines: seq<Line>) returns (k: nat, total: int)
      requires Resolvable(lines, products)
      ensures k == FirstShortage(lines, products)
      ensures k <= |lines| && total == Total(lines[..k], products)
    {
      total := 0;
      k := 0;
      while k < |lines|
        invariant 0 <= k <= |lines|
        invariant forall j :: 0 <= j < k ==> InStock(lines[j], products)
        invariant total == Total(lines[..k], products)
      {
        var line := lines[k];
        if products[line.product].stock < line.quantity {
          return;
        }
        total := total + products[line.product].price * line.quantity;
        assert lines[..k + 1][..k] == lines[..k];
        k := k + 1;
      }
    }

    /** The commit pass of `OrderSerializer.create`: creates the order with
      the computed total, then for each line an item with the product's price
      and a save of that line's product copy with its stock reduced. */
    method Commit(customer: UserId, lines: seq<Line>, total: int) returns (id: OrderId)
      requires Valid()
      requires Resolvable(lines, products) && AllInStock(lines, products)
      requires forall i :: 0 <= i < |lines| ==> lines[i].quantity > 0
      requires total == Total(lines, products)
      modifies this
      ensures Valid()
      ensures id == |old(orders)| + 1
      ensures orders == old(orders) + [Order(id, customer, total, Pending)]
      ensures items == old(items) + ItemsFor(id, lines, old(products))
      ensures products == Committed(old(products), lines)
      ensures nextProduct == old(nextProduct)
    {
      // The copies of the products that deserialization handed to each line.
      var snapshot := products;
      id := |orders| + 1;
      var created, saved := CommitLines(id, snapshot, lines);
      var order := Order(id, customer, total, Pending);
      assert StoreValid(saved, nextProduct, orders + [order], items + created) by {
        PlacementKeepsStore(snapshot, nextProduct, orders, items, customer, lines);
      }
      orders := orders + [order];
      items := items + created;
      products := saved;
    }

    /** `OrderSerializer.create` for `customer`. Fails with the first short
      line's product name and changes nothing, or appends the order and one
      item per line and commits the stock of every named product. */
    method CreateOrder(customer: UserId, lines: seq<Line>) returns (r: Placement)
      requires Valid()
      requires Resolvable(lines, products)
      requires forall i :: 0 <= i < |lines| ==> lines[i].quantity > 0
      modifies this
      ensures Valid()
      ensures r.InsufficientStock? <==> !AllInStock(lines, old(products))
      ensures r.InsufficientStock? ==>
                && r.productName == old(products)[lines[FirstShortage(lines, old(products))].product].name
                && unchanged(this)
      ensures r.Placed? ==>
                && r.order == |old(orders)| + 1
                && orders == old(orders) + [Order(r.order, customer, Total(lines, old(products)), Pending)]
                && items == old(items) + ItemsFor(r.order, lines, old(products))
                && products == Committed(old(products), lines)
                && nextProduct == old(nextProduct)
    {
      var k, total := CheckLines(lines);
      if k < |lines| {
        return InsufficientStock(products[lines[k].product].name);
      }
      assert lines[..k] == lines;
      var id := Commit(customer, lines, total);
      r := Placed(id);
    }
  }
}
