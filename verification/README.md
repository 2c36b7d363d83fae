# Order backend core in Dafny

This project models the core of a small e-commerce backend: order placement,
product field validation, and access control. Orders are placed by
`OrderSerializer.create` through `OrderViewSet.create`. Access control covers the
permission classes, the per-action policy tables, the role-based order queryset
and the status codes the views answer with.

- `permissions.dfy` (module `Permissions`): the caller is either `Anonymous` or a
  `Member` with an id, a profile user type and a superuser flag. It holds the
  predicates `IsAdminUser`, `IsCustomer`, `IsOrderOwner` and `ReadOnly`, plus
  `ProfileIsAdmin`, which is `profile.is_admin()` and means user type `"admin"`.
- `catalog.dfy` (module `Catalog`): products, the price and stock validators, and
  the field errors the serializer collects. Prices are integer cents.
- `orders.dfy` (module `Orders`): the `Store` class holds products by id, orders
  and order items. `CreateOrder` runs the two passes of `OrderSerializer.create`:
  - `CheckLines` is the validation and pricing loop.
  - `Commit` creates the order, then runs the loop `CommitLines`, which
    creates the items and saves the stock.

  Specification functions give the meaning of these methods: `FirstShortage`,
  `Total`, `ItemsFor` and `Committed`. Lemmas prove what the source promises of them.
- `views.dfy` (module `Views`): `get_permissions` for both viewsets, the gate the
  framework runs before a handler, `get_queryset`, and the outcomes of product
  create and of order create, list and retrieve. The two create handlers are
  methods on the store. `CustomerOrderScenario` replays the order tests through
  those methods' contracts.

How the model reads the source:

- Each requested line carries its own copy of the product, fetched when the
  request is deserialized. The commit writes that copy's stock minus the line's
  quantity. With distinct product ids, stock falls by exactly each quantity. When
  a product id repeats, the last line naming it decides the final stock, so the
  order can take more units than were in stock while the stock stays
  non-negative (`CommittedLastWrite`, `RepeatedProductLosesUpdate`).
- A failed permission check answers 401 when the caller presented no credentials
  and 403 otherwise. This is the rule of the framework the views run under, with
  token authentication (`Views.Deny`).
- `IsOrderOwner` defines only an object-level check, so it passes at request
  level. Permission classes without an object-level check pass at object level.
- Retrieval looks the order up in the caller's queryset first and answers 404
  when it is absent. Only then does it run the object check, which can then never
  fail (`RetrieveOrderOutcomes`).

Behaviour of the code worth knowing:

- The commit takes no lock.
- An unknown product id fails field validation with 400, not 404.
- `profile.is_admin()` is defined in a models file that is not part of this
  model. It is taken to be `user_type == "admin"`, as api/tests.py:219-228
  shows. Taken that way, it does not look at the superuser flag, while
  `IsAdminUser` honours it.
- A non-admin who reads another customer's order gets 404.
- The per-line stock check does not stop a repeated product from being oversold.

## Model

| member | source | states |
|---|---|---|
| Permissions.IsAdminUser | api/permissions.py:7-9 | the request-level admin check: an authenticated caller whose profile's user type is admin, or any superuser (the definition; `RolesExclusive`, `SuperuserOverride`, `ProfileAdminIsAdminUser` and `AnonymousHasNoRole` state its consequences) |
| Permissions.IsCustomer | api/permissions.py:15-17 | the request-level customer check: an authenticated caller whose user type is customer (the definition; `RolesExclusive`, `SuperuserOverride` and `AnonymousHasNoRole` state its consequences) |
| Permissions.IsOrderOwner | api/permissions.py:23-24 | the object-level owner check: the order's customer is the calling user (the definition; `AnonymousHasNoRole` and `Views.QuerysetIsOwnedOrders` state its consequences) |
| Permissions.ReadOnly | api/permissions.py:30-31 | the request method is one of the safe methods (the definition; `ReadOnlyExactlySafe` states it per method) |
| Permissions.ProfileIsAdmin | api/tests.py:219-228 | `profile.is_admin()`, taken to be "the user type is admin", as the tests exercise it (the definition; `ProfileAdminIsAdminUser` relates it to `IsAdminUser`) |
| Permissions.AnonymousHasNoRole | api/permissions.py:7-24 | an anonymous caller satisfies neither `IsCustomer` nor `IsAdminUser` and owns no order, whoever the order's customer is |
| Permissions.RolesExclusive | api/permissions.py:7-17 | for a non-superuser, `IsAdminUser` and `IsCustomer` never both hold |
| Permissions.SuperuserOverride | api/permissions.py:7-9 | a superuser passes `IsAdminUser` whatever its user type; it passes `IsCustomer` only with user type customer |
| Permissions.ProfileAdminIsAdminUser | api/permissions.py:7-9 | a member whose profile says admin passes `IsAdminUser`; a non-superuser passes it only with that profile |
| Permissions.ReadOnlyExactlySafe | api/permissions.py:30-31 | `ReadOnly` holds exactly for GET, HEAD and OPTIONS and depends on nothing but the method |
| Catalog.ValidatePrice | api/serializers.py:42-48 | a price is accepted, unchanged, iff it is strictly positive; otherwise it is rejected with the price message |
| Catalog.ValidateStock | api/serializers.py:50-56 | a stock is accepted, unchanged, iff it is at least 0; otherwise it is rejected with the stock message |
| Catalog.ProductErrors | api/serializers.py:42-56 | the price field has an error iff price ≤ 0 and the stock field iff stock < 0, each with its validator's message; there are no errors iff the product would be valid |
| Orders.FirstShortage | api/serializers.py:82-89 | the validation pass stops at the first line whose product stock is below its quantity; every earlier line is in stock; it runs to the end iff all lines are in stock |
| Orders.InStock | api/serializers.py:86-89 | a line passes the stock check unless its product's stock is below its quantity (the definition; `FirstShortage` and `Store.CheckLines` build on it) |
| Orders.Total | api/serializers.py:76-91 | the total starts at 0 and adds price × quantity for each line in request order (the definition; `TotalIsSumOfItems` and `Store.CheckLines` state its properties) |
| Orders.ItemsFor | api/serializers.py:101-110 | the commit creates exactly one item per line |
| Orders.ItemsForLines | api/serializers.py:101-110 | item i belongs to the order and carries line i's product and quantity and the product's price at creation, in request order |
| Orders.Committed | api/serializers.py:112-113 | the commit adds and removes no product |
| Orders.CommittedFrame | api/serializers.py:100-113 | the commit changes no name, description or price, and leaves every product that no line names unchanged |
| Orders.TotalIsSumOfItems | api/serializers.py:76-110 | the total, starting from 0 and adding price × quantity per line, equals the sum of price × quantity over the created items |
| Orders.CommittedLastWrite | api/serializers.py:101-113 | a product's final stock is its stock as fetched for the last line naming it, minus that line's quantity |
| Orders.CommittedDistinct | api/serializers.py:112-113 | with distinct product ids, each named product's stock falls by exactly its line's quantity |
| Orders.CommittedKeepsCatalogValid | api/serializers.py:82-113 | after a commit of lines that all passed the stock check, every product still has a positive price and a non-negative stock |
| Orders.PlacementKeepsPrices | api/serializers.py:94-110 | appending an order whose total is the sum over its new items keeps every order's total equal to the sum over its own items |
| Orders.PlacementKeepsStore | api/serializers.py:94-113 | a placement keeps the whole store invariant: valid catalog, orders numbered in creation order, items linked to stored orders and products, totals matching items |
| Orders.PlacementScenario | api/tests.py:170-192 | at 99.99 with stock 100, two units total 199.98 and leave 98; 101 units fail the stock check |
| Orders.RepeatedProductLosesUpdate | api/serializers.py:82-113 | two lines of 60 against a stock of 100 both pass the check and leave the stock at 40 |
| Orders.Store.AddProduct | api/views.py:44-46 | saving validated fields adds exactly that product under a fresh id and keeps the store invariant |
| Orders.Store.CheckLines | api/serializers.py:76-91 | the validation loop stops at `FirstShortage` and its running total is the total of the lines before that point; it changes nothing |
| Orders.CommitLines | api/serializers.py:101-113 | the commit loop over the fetched copies produces exactly `ItemsFor` the lines and the products `Committed` describes |
| Orders.Store.Commit | api/serializers.py:93-113 | the commit appends the order with the computed total, appends `ItemsFor` the lines, leaves products equal to `Committed`, and keeps the store invariant |
| Orders.Store.CreateOrder | api/serializers.py:74-115 | fails iff some line is short, names the first short line's product and changes nothing; otherwise it appends the pending order of the given customer with the total and items above and commits the stock |
| Views.HasPermission | api/views.py:27-32 | how the framework evaluates a permission list at request level: the classes' own checks, with `IsOrderOwner` passing because it has no request-level check; it models the framework, not code in these files (`ProductPolicy` and `OrderPolicy` state the outcome per action) |
| Views.HasObjectPermission | api/views.py:66 | how the framework evaluates a permission list at object level: authentication and (owner or admin user) for the owner-or-admin list, a pass for lists without an object-level check; it models the framework (`OrderPolicy` states it) |
| Views.Deny | api/views.py:60-67 | how the framework answers a failed permission check under token authentication: 401 without credentials, 403 otherwise; it models the framework (`ProductCreateOutcomes` and `OrderCreateOutcomes` state the resulting codes) |
| Views.ProductPermission | api/views.py:27-32 | `ProductViewSet.get_permissions`: writes get `IsAdminUser`, every other action `ReadOnly` or `IsAuthenticated` (`ProductPolicy` states its effect) |
| Views.ProductPolicy | api/views.py:27-32 | product create, update, partial update and destroy require `IsAdminUser`; every other action passes for safe methods or authenticated callers |
| Views.AnonymousBrowsesProducts | api/views.py:27-32 | an anonymous caller may list and read products with a safe method |
| Views.ProductCreateStatus | api/views.py:34-48 | the status of product create: the gate, then the profile check, then validation (`ProductCreateOutcomes` states its cases) |
| Views.ProductCreateOutcomes | api/views.py:34-48 | 201 iff the caller is a member with an admin profile and both fields are valid; 400 iff such a caller sends an invalid field; 401 for an anonymous caller; 403 for every other member |
| Views.SuperuserCustomerCannotCreateProducts | api/views.py:38-42 | a superuser with a customer profile passes the gate but the handler answers 403 |
| Views.CreateProduct | api/views.py:34-48 | answers as `ProductCreateStatus`, returns the field errors on 400, saves the product only on 201 and leaves the store unchanged otherwise |
| Views.OrderPermission | api/views.py:60-67 | `OrderViewSet.get_permissions`: create gets `IsCustomer`, list `IsAuthenticated`, every other action `IsAuthenticated` and (`IsOrderOwner` or `IsAdminUser`) (`OrderPolicy` states its effect) |
| Views.OrderPolicy | api/views.py:60-67 | order create requires `IsCustomer`; list requires authentication; every other action requires authentication, and at object level authentication and (owner or `IsAdminUser`) |
| Views.OrdersHaveNoUpdateOrDelete | api/views.py:58 | POST is the only unsafe method the order viewset accepts |
| Views.OwnedBy | api/views.py:73 | the filtered queryset holds exactly the orders whose customer is the given user |
| Views.Visible | api/views.py:69-73 | an admin profile sees every order; anyone else sees exactly the orders whose customer they are |
| Views.QuerysetIsOwnedOrders | api/views.py:69-73 | a caller whose profile is not admin sees exactly the orders it owns in the sense of `IsOrderOwner`; an admin profile sees every order |
| Views.FindOrder | api/views.py:124-130 | the lookup finds an order with the requested id iff the queryset holds one |
| Views.ListOrders | api/views.py:104-113 | the reply to an order list: the gate, the handler's own authentication check, then the queryset (`ListOrdersOutcomes` states its cases) |
| Views.ListOrdersOutcomes | api/views.py:104-113 | listing answers 200 iff the caller is a member and 401 otherwise; the body is exactly the orders `get_queryset` lets the caller see |
| Views.RetrieveOrder | api/views.py:115-130 | the reply to an order read: the gate, the handler's check, the lookup in the queryset, then the object check (`RetrieveOrderOutcomes` states its cases) |
| Views.RetrieveOrderOutcomes | api/views.py:115-130 | reading answers 401 to an anonymous caller and never 403; it answers 200 iff a visible order has the id, with that order as body, and 404 for every other member request |
| Views.WellFormed | api/serializers.py:59-62 | the field validation of the order lines: every product id names a stored product and every quantity is positive (the definition) |
| Views.OrderCreateStatus | api/views.py:75-102 | the status of order create: the gate, the handler's authentication check, field validation, then the stock check of the save (`OrderCreateOutcomes` states its cases) |
| Views.OrderCreateOutcomes | api/views.py:75-102 | 201 iff the caller is a customer and the lines are well formed and all in stock; every other customer request is 400, an anonymous one 401 and any other member's 403 |
| Views.PlaceOrder | api/views.py:75-102 | answers as `OrderCreateStatus`; on 201 the store holds the caller's new pending order with the computed total, its items and the committed stock, and the product counter is untouched; on any other answer the store is unchanged |

## Left out

- Registration (`UserSerializer.create`, `UserRegistrationView`): framework plumbing over password hashing and a signal-created profile defined in a models file that is not part of this model.
- The token endpoints and the Django admin configuration (`api/admin.py`): library behaviour and display settings, with no logic of their own.
- Concurrency: the source takes no lock, so the model is one sequential store. The overselling race between two concurrent orders is not modelled.
- Failures in the middle of the commit pass: the handler catches them inside the atomic block, so whether such a failure rolls back is not modelled. The only failure modelled is the stock check of the validation pass.
- The product update, partial update, destroy, list and retrieve handlers are inherited framework behaviour. Only their permission checks are modelled.
- Quantity validation is defined in a models file that is not part of this model. A quantity is taken to be valid iff it is positive (`Views.WellFormed`).
- Other field validation of the framework (required fields, lengths, decimal places): not modelled.
- Money is exact integer cents. The 28-digit rounding of the decimal type and the size limits of the stored decimal fields are not modelled.
- Order statuses after `pending`: they are defined outside the files modelled here.
- Response bodies and their serialization: only the status codes, the field errors of product create and the orders returned by list and retrieve are modelled.
- The 405 answer to PUT, PATCH and DELETE on orders, and where it falls relative to the permission check: only the set of accepted methods is modelled.
- Inactive users and users without a profile: every member is taken to have a profile.
- Database ids: `OrdersNumbered` takes order ids to be exactly 1, 2, … in creation order, and product ids come from a counter. A real database may leave gaps (after a rolled-back insert or a deletion); the model abstracts ids and does not capture gaps.
