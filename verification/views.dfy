/**
  The product and order endpoints (api/views.py): the per-action permission
  tables, the role-based order queryset, and the status each handler answers
  with. Gate checks and handler guards are pure decisions; the two create
  handlers are methods that reach the store.
 */
module Views {
  import opened Wrappers
  import opened Permissions
  import opened Catalog
  import opened Orders

  /** The viewset actions the router dispatches to. */
  datatype Action = List | Retrieve | Create | Update | PartialUpdate | Destroy | Metadata

  datatype Status = Ok | Created | BadRequest | Unauthorized | Forbidden | NotFound | MethodNotAllowed
  {
    function Code(): int {
      match this
      case Ok => 200
      case Created => 201
      case BadRequest => 400
      case Unauthorized => 401
      case Forbidden => 403
      case NotFound => 404
      case MethodNotAllowed => 405
    }
  }

  /** A status together with the orders in the response body. */
  datatype Reply = Reply(status: Status, body: seq<Order>)

  /** The permission lists `get_permissions` hands out. */
  datatype Permission =
    | AdminOnly                     // [IsAdminUser]
    | ReadOnlyOrAuthenticated       // [ReadOnly | IsAuthenticated]
    | CustomerOnly                  // [IsCustomer]
    | AuthenticatedOnly             // [IsAuthenticated]
    | AuthenticatedAndOwnerOrAdmin  // [IsAuthenticated & (IsOrderOwner | IsAdminUser)]

  const PRODUCT_WRITES: set<Action> := {Create, Update, PartialUpdate, Destroy}

  /** The methods the order viewset accepts at all. */
  const ORDER_METHODS: set<HttpMethod> := {GET, POST, HEAD, OPTIONS}

  /** `ProductViewSet.get_permissions`. */
  function ProductPermission(action: Action): Permission {
    if action in PRODUCT_WRITES then AdminOnly else ReadOnlyOrAuthenticated
  }

  /** `OrderViewSet.get_permissions`. */
  function OrderPermission(action: Action): Permission {
    if action == Create then CustomerOnly
    else if action == List then AuthenticatedOnly
    else AuthenticatedAndOwnerOrAdmin
  }

  /** The request-level check the framework runs before any handler.
      `IsOrderOwner` only has an object-level check; at request level it
      passes, so the owner-or-admin disjunction holds here. */
  predicate HasPermission(p: Permission, actor: Actor, verb: HttpMethod) {
    match p
    case AdminOnly => IsAdminUser(actor)
    case ReadOnlyOrAuthenticated => ReadOnly(verb) || IsAuthenticated(actor)
    case CustomerOnly => IsCustomer(actor)
    case AuthenticatedOnly => IsAuthenticated(actor)
    case AuthenticatedAndOwnerOrAdmin => IsAuthenticated(actor)
  }

  /** The object-level check on a fetched order. Permissions without an
      object-level check of their own pass. */
  predicate HasObjectPermission(p: Permission, actor: Actor, order: Order) {
    match p
    case AuthenticatedAndOwnerOrAdmin =>
      IsAuthenticated(actor) && (IsOrderOwner(actor, order.customer) || IsAdminUser(actor))
    case _ => true
  }

  /** The answer to a failed permission check: 401 when no credentials were
      presented, 403 otherwise. */
  function Deny(actor: Actor): Status {
    if IsAuthenticated(actor) then Forbidden else Unauthorized
  }

  // ---------------------------------------------------------------- products

  /** The product policy table: writes need `IsAdminUser`; everything else
      is open to safe methods and to any authenticated caller. */
  lemma ProductPolicy(actor: Actor, action: Action, verb: HttpMethod)
    ensures action in PRODUCT_WRITES ==>
              (HasPermission(ProductPermission(action), actor, verb) <==> IsAdminUser(actor))
    ensures action !in PRODUCT_WRITES ==>
              (HasPermission(ProductPermission(action), actor, verb) <==> ReadOnly(verb) || IsAuthenticated(actor))
  {
  }

  /** Anyone, signed in or not, may list and read products. */
  lemma AnonymousBrowsesProducts(verb: HttpMethod)
    requires ReadOnly(verb)
    ensures HasPermission(ProductPermission(List), Anonymous, verb)
    ensures HasPermission(ProductPermission(Retrieve), Anonymous, verb)
  {
  }

  /** `ProductViewSet.create`: the gate, then the handler's own profile check
      (which ignores the superuser flag), then field validation. */
  function ProductCreateStatus(actor: Actor, fields: ProductFields): Status {
    if !HasPermission(ProductPermission(Create), actor, POST) then Deny(actor)
    else if !ProfileIsAdmin(actor) then Forbidden
    else if ProductErrors(fields) != map[] then BadRequest
    else Created
  }

  /** Only a member whose profile says admin gets past the handler's check;
      such a request is created exactly when both validators accept. */
  lemma ProductCreateOutcomes(actor: Actor, fields: ProductFields)
    ensures ProductCreateStatus(actor, fields) == Created <==>
              actor.Member? && actor.userType == ADMIN && fields.price > 0 && fields.stock >= 0
    ensures ProductCreateStatus(actor, fields) == BadRequest <==>
              actor.Member? && actor.userType == ADMIN && (fields.price <= 0 || fields.stock < 0)
    ensures actor.Anonymous? ==> ProductCreateStatus(actor, fields) == Unauthorized
    ensures actor.Member? && actor.userType != ADMIN ==> ProductCreateStatus(actor, fields) == Forbidden
  {
  }

  /** A superuser whose profile is not admin passes the gate but is refused
      by the handler. */
  lemma SuperuserCustomerCannotCreateProducts(id: UserId, fields: ProductFields)
    ensures HasPermission(ProductPermission(Create), Member(id, CUSTOMER, true), POST)
    ensures ProductCreateStatus(Member(id, CUSTOMER, true), fields) == Forbidden
  {
  }

  /** The product create endpoint: answers as `ProductCreateStatus` says and
      saves the product only when it answers 201. */
  method CreateProduct(store: Store, actor: Actor, fields: ProductFields)
    returns (status: Status, created: Option<ProductId>, errors: map<Field, string>)
    requires store.Valid()
    modifies store
    ensures store.Valid()
    ensures status == ProductCreateStatus(actor, fields)
    ensures status == BadRequest ==> errors == ProductErrors(fields)
    ensures status == Created ==>
              && created.Some?
              && created.value !in old(store.products)
              && store.products == old(store.products)[created.value := FromFields(fields)]
              && store.orders == old(store.orders) && store.items == old(store.items)
    ensures status != Created ==> created == None && unchanged(store)
  {
    created, errors := None, map[];
    if !HasPermission(ProductPermission(Create), actor, POST) {
      return Deny(actor), created, errors;
    }
    if !ProfileIsAdmin(actor) {
      return Forbidden, created, errors;
    }
    errors := ProductErrors(fields);
    if errors != map[] {
      return BadRequest, created, errors;
    }
    var id := store.AddProduct(fields);
    status, created := Created, Some(id);
  }

  // ------------------------------------------------------------------ orders

  /** The order policy table: create needs a customer, list needs any
      signed-in caller, everything else a signed-in caller who owns the
      order or is an admin user. */
  lemma OrderPolicy(actor: Actor, action: Action, verb: HttpMethod, order: Order)
    ensures action == Create ==> (HasPermission(OrderPermission(action), actor, verb) <==> IsCustomer(actor))
    ensures action == List ==> (HasPermission(OrderPermission(action), actor, verb) <==> IsAuthenticated(actor))
    ensures action != Create && action != List ==>
              && (HasPermission(OrderPermission(action), actor, verb) <==> IsAuthenticated(actor))
              && (HasObjectPermission(OrderPermission(action), actor, order) <==>
                    IsAuthenticated(actor) && (IsOrderOwner(actor, order.customer) || IsAdminUser(actor)))
  {
  }

  /** The order viewset takes no PUT, PATCH or DELETE: POST is its only
      unsafe method, so orders cannot be updated or deleted through it. */
  lemma OrdersHaveNoUpdateOrDelete(verb: HttpMethod)
    ensures verb in ORDER_METHODS && !ReadOnly(verb) <==> verb == POST
  {
  }

  /** The orders of one customer, in stored order. */
  function OwnedBy(orders: seq<Order>, customer: UserId): (r: seq<Order>)
    ensures forall o :: o in r <==> o in orders && o.customer == customer
    ensures |r| <= |orders|
  {
    if |orders| == 0 then []
    else
      var rest := OwnedBy(orders[1..], customer);
      assert forall o :: o in orders <==> o == orders[0] || o in orders[1..];
      if orders[0].customer == customer then [orders[0]] + rest else rest
  }

  /** `OrderViewSet.get_queryset`: every order for a caller whose profile says
      admin, otherwise the caller's own orders. */
  function Visible(actor: Actor, orders: seq<Order>): (r: seq<Order>)
    requires actor.Member?
    ensures forall o :: o in r <==> o in orders && (actor.userType == ADMIN || o.customer == actor.id)
  {
    if ProfileIsAdmin(actor) then orders else OwnedBy(orders, actor.id)
  }

  /** A caller whose profile is not admin sees in its queryset exactly the
      orders it owns; an admin profile sees every order. */
  lemma QuerysetIsOwnedOrders(actor: Actor, orders: seq<Order>)
    requires actor.Member?
    ensures !ProfileIsAdmin(actor) ==>
              forall o :: o in Visible(actor, orders) <==> o in orders && IsOrderOwner(actor, o.customer)
    ensures ProfileIsAdmin(actor) ==> Visible(actor, orders) == orders
  {
  }

  /** The first order with the given id. */
  function FindOrder(orders: seq<Order>, id: OrderId): (r: Option<Order>)
    ensures r.Some? <==> exists o :: o in orders && o.id == id
    ensures r.Some? ==> r.value in orders && r.value.id == id
  {
    if |orders| == 0 then None
    else if orders[0].id == id then Some(orders[0])
    else
      assert forall o :: o in orders <==> o == orders[0] || o in orders[1..];
      FindOrder(orders[1..], id)
  }

  /** `OrderViewSet.list`. */
  function ListOrders(actor: Actor, orders: seq<Order>): Reply {
    if !HasPermission(OrderPermission(List), actor, GET) then Reply(Deny(actor), [])
    else if !IsAuthenticated(actor) then Reply(Unauthorized, [])
    else Reply(Ok, Visible(actor, orders))
  }

  /** Listing answers 401 without credentials; otherwise an admin sees every
      order and anyone else exactly their own. */
  lemma ListOrdersOutcomes(actor: Actor, orders: seq<Order>)
    ensures ListOrders(actor, orders).status == Ok <==> actor.Member?
    ensures actor.Anonymous? ==> ListOrders(actor, orders) == Reply(Unauthorized, [])
    ensures actor.Member? ==>
              forall o :: o in ListOrders(actor, orders).body <==>
                o in orders && (actor.userType == ADMIN || o.customer == actor.id)
  {
  }

  /** `OrderViewSet.retrieve`: the gate, the handler's own check, the lookup
      in the caller's queryset (404 when absent), then the object check. */
  function RetrieveOrder(actor: Actor, id: OrderId, orders: seq<Order>): Reply {
    if !HasPermission(OrderPermission(Retrieve), actor, GET) then Reply(Deny(actor), [])
    else if !IsAuthenticated(actor) then Reply(Unauthorized, [])
    else
      match FindOrder(Visible(actor, orders), id)
      case None => Reply(NotFound, [])
      case Some(order) =>
        if !HasObjectPermission(OrderPermission(Retrieve), actor, order) then Reply(Forbidden, [])
        else Reply(Ok, [order])
  }

  /** Reading one order answers 401 without credentials, 404 when the order
      is missing or belongs to someone else (for a non-admin), and never 403:
      the queryset already holds only orders the object check lets through. */
  lemma {:induction false} RetrieveOrderOutcomes(actor: Actor, id: OrderId, orders: seq<Order>)
    ensures actor.Anonymous? ==> RetrieveOrder(actor, id, orders) == Reply(Unauthorized, [])
    ensures RetrieveOrder(actor, id, orders).status != Forbidden
    ensures RetrieveOrder(actor, id, orders).status == Ok <==>
              actor.Member? &&
              exists o :: o in orders && o.id == id && (actor.userType == ADMIN || o.customer == actor.id)
    ensures RetrieveOrder(actor, id, orders).status == Ok ==>
              var o := RetrieveOrder(actor, id, orders).body;
              && |o| == 1 && o[0] in orders && o[0].id == id
              && (actor.userType == ADMIN || o[0].customer == actor.id)
    ensures actor.Member? && RetrieveOrder(actor, id, orders).status != Ok ==>
              RetrieveOrder(actor, id, orders) == Reply(NotFound, [])
  {
    if actor.Member? {
      var found := FindOrder(Visible(actor, orders), id);
      if found.Some? {
        assert found.value in Visible(actor, orders);
        ProfileAdminIsAdminUser(actor);
      }
    }
  }

  /** The order lines as the request names them, checked the way the
      serializer's field validation checks them: every product must exist
      and every quantity be positive. */
  predicate WellFormed(lines: seq<Line>, products: map<ProductId, Product>) {
    Resolvable(lines, products) && forall i :: 0 <= i < |lines| ==> lines[i].quantity > 0
  }

  /** `OrderViewSet.create`: the gate, the handler's own check, field
      validation, then the save; the insufficient-stock error raised by the
      save is caught and answered with 400. */
  function OrderCreateStatus(actor: Actor, lines: seq<Line>, products: map<ProductId, Product>): Status {
    if !HasPermission(OrderPermission(Create), actor, POST) then Deny(actor)
    else if !IsAuthenticated(actor) then Unauthorized
    else if !WellFormed(lines, products) then BadRequest
    else if !AllInStock(lines, products) then BadRequest
    else Created
  }

  /** An order is created exactly for a customer whose lines are well formed
      and all in stock; every other customer request is a 400, an anonymous
      one a 401 and any other member's a 403. */
  lemma OrderCreateOutcomes(actor: Actor, lines: seq<Line>, products: map<ProductId, Product>)
    ensures OrderCreateStatus(actor, lines, products) == Created <==>
              IsCustomer(actor) && WellFormed(lines, products) && AllInStock(lines, products)
    ensures IsCustomer(actor) && OrderCreateStatus(actor, lines, products) != Created ==>
              OrderCreateStatus(actor, lines, products) == BadRequest
    ensures actor.Anonymous? ==> OrderCreateStatus(actor, lines, products) == Unauthorized
    ensures actor.Member? && actor.userType != CUSTOMER ==> OrderCreateStatus(actor, lines, products) == Forbidden
  {
  }

  /** The order create endpoint: answers as `OrderCreateStatus` says; on 201
      the store holds the new order of the caller with the computed total,
      its items and the committed stock, and on any other answer nothing
      changed. */
  method PlaceOrder(store: Store, actor: Actor, lines: seq<Line>) returns (status: Status, created: Option<OrderId>)
    requires store.Valid()
    modifies store
    ensures store.Valid()
    ensures status == OrderCreateStatus(actor, lines, old(store.products))
    ensures status == Created ==>
              && actor.Member?
              && created == Some(|old(store.orders)| + 1)
              && store.orders == old(store.orders) + [Order(created.value, actor.id, Total(lines, old(store.products)), Pending)]
              && store.items == old(store.items) + ItemsFor(created.value, lines, old(store.products))
              && store.products == Committed(old(store.products), lines)
              && store.nextProduct == old(store.nextProduct)
    ensures status != Created ==> created == None && unchanged(store)
  {
    created := None;
    if !HasPermission(OrderPermission(Create), actor, POST) {
      return Deny(actor), created;
    }
    if !IsAuthenticated(actor) {
      return Unauthorized, created;
    }
    if !WellFormed(lines, store.products) {
      return BadRequest, created;
    }
    var placement := store.CreateOrder(actor.id, lines);
    match placement
    case Placed(id) =>
      status, created := Created, Some(id);
    case InsufficientStock(_) =>
      status := BadRequest;
  }

  /** The order tests' placements, told through the contracts above: a
      customer orders 2 of a product stocked at 100 and sees the stock fall to
      98; a request for 101 more is refused and changes nothing. */
  method CustomerOrderScenario() {
    var store := new Store();
    var pid := store.AddProduct(ProductFields("Test Product", "Test Description", 9999, 100));
    var customer := Member(1, CUSTOMER, false);
    var two, tooMany := [Line(pid, 2)], [Line(pid, 101)];
    assert two[..0] == [];
    assert InStock(two[0], store.products);
    assert OrderCreateStatus(customer, two, store.products) == Created;

    var status, created := PlaceOrder(store, customer, two);
    assert status == Created && created == Some(1);
    assert store.products[pid].stock == 98;
    assert store.orders == [Order(1, 1, 19998, Pending)];

    assert !InStock(tooMany[0], store.products);
    assert OrderCreateStatus(customer, tooMany, store.products) == BadRequest;
    status, created := PlaceOrder(store, customer, tooMany);
    assert status.Code() == 400 && store.products[pid].stock == 98;
  }

  /** The order tests' reads: the customer lists its one order, an anonymous
      caller is answered 401, another customer 404 and an admin 200. */
  lemma CustomerReadScenario()
    ensures var orders := [Order(1, 1, 19998, Pending)];
            && ListOrders(Member(1, CUSTOMER, false), orders).body == orders
            && RetrieveOrder(Anonymous, 1, orders).status.Code() == 401
            && RetrieveOrder(Member(2, CUSTOMER, false), 1, orders).status.Code() == 404
            && RetrieveOrder(Member(3, ADMIN, false), 1, orders) == Reply(Ok, orders)
  {
    var orders := [Order(1, 1, 19998, Pending)];
    assert orders[1..] == [];
    RetrieveOrderOutcomes(Member(2, CUSTOMER, false), 1, orders);
  }
}
