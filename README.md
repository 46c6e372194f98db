# storefront store app, modelled in Dafny

This project models the `store` app of a Django REST storefront. The store is a catalog of products grouped into collections. Anonymous carts are keyed by UUID and hold one line per product. Orders copy a cart's lines at the prices of the moment and carry a payment status. Reviews belong to products, and customers are attached to users.

The model holds these, in memory and in their own terms:

- Tables: the database tables as maps in one `Database.Db` object, with an auto-increment counter per table.
- Schema integrity: `Db.Valid()` states what the schema guarantees. Every foreign key resolves, the validators and column ranges hold, `(cart, product)` is unique, the line ids of a cart are distinct, and a user has at most one customer.
- Deletes: they follow the `on_delete` rules CASCADE, SET_NULL and PROTECT.
- Operations: the row-level writes (inserts, updates, guarded deletes) are methods of `Db`. The serializers and views that change the tables are module-level methods that take the `Db` object, such as `Serializers.AddCartItem` and `Views.DestroyProduct`. Each keeps `Valid()`, states the whole new state, and states exactly when it succeeds.
- Pure logic: the line upsert, the totals, the price freeze, the permission checks, the row scoping, the serializer choice and the admin inventory rules are functions with lemmas.

Amounts are integer cents. A price is a `DecimalField(max_digits=6, decimal_places=2)` with a minimum of 1, so it lies in 100..999999. Quantities are `PositiveSmallIntegerField`, 1..32767. Inventory is an `IntegerField` with a minimum of 0.

Files and modules:

| file | module | models |
|---|---|---|
| models.dfy | `Models` | entities, field domains, choice sets and defaults, errors |
| cart_lines.dfy | `CartLines` | the lines of one cart: upsert, lookup, cascade, totals, price freeze |
| database.dfy | `Database` | the tables, their integrity, inserts, updates, guarded deletes |
| serializers.dfy | `Serializers` | validation and saving by the serializers |
| views.dfy | `Views` | view logic: destroy/delete guards, cart check, permissions, scoping |
| permissions.dfy | `Permissions` | permission classes and the model-permission table |
| admin.dfy | `Admin` | inventory status, inventory filter, clear-inventory action |

Inputs the app takes from outside become parameters:
- the customer id of the requesting user;
- the fresh UUID of a new cart;
- the user of a request;
- the HTTP method;
- the admin's selection of rows.

Where the code and the intent it shows disagree, the model has both: a member for the code as written and a corrected member that the rest of the model uses (see Findings). Checkout is one case. The app's own `OrderViewSet.validate_cart_id` (store/views.py:177-184) refuses a missing or empty cart, but nothing calls it. `Views.Create` models the code as written and `Views.Checkout` applies the check. The product update is the other. `Serializers.UpdateProductAsWritten` saves what `ProductSerializer.update` writes, while `Serializers.UpdateProduct`, the one the rest of the model relies on, writes every field the request carries.

## Model

| member | source | states |
|---|---|---|
| Models.PaymentStatusOf | store/models.py:84-95 | exactly the letters P, C, F decode to a payment status, and each decodes to the status with that code |
| Models.MembershipOf | store/models.py:48-63 | exactly the letters B, S, G decode to a membership, and each decodes to the membership with that code |
| Models.ChoiceCodesRoundTrip | store/models.py:84-95 | decoding the stored code of a status or membership gives back that choice |
| CartLines.FindLine | store/serializers.py:170 | the lookup of a cart's line for a product finds a line with that product, and finds none exactly when the cart has no such line |
| CartLines.FindUnique | store/models.py:135-136 | with one line per product, the lookup finds the one line holding the product |
| CartLines.AddToLines | store/serializers.py:169-175 | after the upsert the cart has a line for the product; it has one line more exactly when it had none for the product |
| CartLines.AddToExisting | store/serializers.py:170-173 | adding a product already in the cart raises that line by exactly the added amount, adds no line and leaves every other line as it was |
| CartLines.AddToAbsent | store/serializers.py:174-175 | adding a product not in the cart appends exactly one line with that product, quantity and the fresh id |
| CartLines.AddKeepsUnique | store/models.py:135-136 | the upsert keeps one line per product |
| CartLines.AddKeepsLines | store/serializers.py:164-176 | the upsert keeps quantities valid, products in the catalog and line ids distinct and below the key counter, provided a raised line stays in range |
| CartLines.LineTotal | store/serializers.py:134-135 | a line's total, quantity times the product's current price, lies between that price (at least 1.00) and 32767 × 9999.99 for a valid line |
| CartLines.CartTotal | store/serializers.py:146-147 | the sum of the line totals; no `ensures` of its own, its properties are CartTotalAppend, CartTotalUpdate, CartTotalPermutation and CartTotalAtLeast |
| CartLines.CartTotalPermutation | store/serializers.py:146-147 | the items query has no order, and any order of the same lines gives the same total |
| CartLines.RemoveAtMultiset | store/views.py:97-99 | deleting line `i` removes exactly one copy of it from the lines |
| CartLines.CartTotalAppend | store/serializers.py:146-147 | appending a line adds that line's total to the cart's total |
| CartLines.CartTotalUpdate | store/serializers.py:146-147 | replacing a line changes the cart's total by the difference of the two line totals |
| CartLines.AddRaisesTotal | store/serializers.py:164-176 | adding `q` of a product raises the cart's total by exactly `q` times its current price |
| CartLines.CartTotalAtLeast | store/serializers.py:146-147 | a cart of valid lines at valid prices is worth at least 1.00 per line |
| CartLines.WithoutProduct | store/models.py:130 | the CASCADE of a product delete keeps exactly the lines for other products |
| CartLines.WithoutProductKeepsDistinct | store/models.py:135-136 | dropping a product's lines keeps products and ids distinct |
| CartLines.WithoutProductKeepsLines | store/models.py:130 | after the cascade the cart is valid, and refers only to products that remain and never to the deleted one |
| CartLines.FindItem | store/views.py:114-117 | the lookup of a line by primary key within a cart finds a line with that id, and finds none exactly when no line has it |
| CartLines.FindItemUnique | store/views.py:114-117 | with distinct ids, the lookup finds the one line with the id |
| CartLines.SetQuantity | store/serializers.py:183-186 | writing a quantity changes only that line's quantity, keeping its id, its product and every other line |
| CartLines.SetQuantityKeepsKeys | store/models.py:135-136 | writing a valid quantity into a line keeps products and ids distinct, products in the catalog and ids below the counter |
| CartLines.SetQuantityKeepsLines | store/serializers.py:183-186 | writing a valid quantity into a line keeps the cart valid and changes its total by the quantity difference times the price |
| CartLines.RemoveAt | store/views.py:97-99 | deleting a line shortens the cart by one |
| CartLines.RemoveAtElements | store/views.py:97-99 | deleting line `i` keeps every other line, in order |
| CartLines.RemoveAtKeepsDistinct | store/models.py:135-136 | deleting a line keeps products and ids distinct, and no line left shares the deleted line's key |
| CartLines.RemoveAtKeepsLines | store/views.py:97-99 | after deleting the line with an id, the cart holds exactly the lines with other ids and stays valid |
| CartLines.RemoveAtTotal | store/serializers.py:146-147 | deleting a line lowers the cart's total by that line's total |
| CartLines.FreezeLines | store/serializers.py:219-226 | one order line per cart line, same product and quantity, at the product's price at the time |
| CartLines.OrderTotal | store/serializers.py:219-226 | what an order's lines come to at their frozen prices, never negative for valid order lines |
| CartLines.FrozenTotal | store/serializers.py:219-226 | at placement the order is worth exactly what the cart was |
| CartLines.FreezeValid | store/models.py:121-122 | frozen lines have quantity at least 1 and a price between 0 and 9999.99, and refer to catalog products |
| Database.CascadeRemovesProduct | store/models.py:128-139 | a product delete keeps every cart with exactly its other lines, only the reviews of other products, and every collection, none featuring the product |
| Database.Unfeature | store/models.py:18-22 | SET_NULL: a collection that featured the product features nothing, keeping its title; any other is unchanged |
| Database.CascadeCarts | store/models.py:130 | every cart with its lines for the product removed; no `ensures` of its own, its meaning is stated by CascadeRemovesProduct |
| Database.CascadeReviews | store/models.py:139 | the reviews of other products; no `ensures` of its own, its meaning is stated by CascadeRemovesProduct |
| Database.CascadeCollections | store/models.py:18-22 | every collection, unfeaturing the product; no `ensures` of its own, its meaning is stated by CascadeRemovesProduct |
| Database.CartItemsOf | store/views.py:114-117 | the lines of the cart named in the URL are exactly that cart's lines, none for a missing cart |
| Database.CascadeKeepsCatalog | store/models.py:18-22 | SET_NULL of featured_product keeps every featured product in the catalog |
| Database.CascadeKeepsCarts | store/models.py:130 | the line cascade keeps every cart valid against the reduced catalog |
| Database.UnorderedKeepsOrders | store/models.py:120 | removing a product no order line refers to keeps every order line's product in the catalog |
| Database.DeleteProductKeepsValid | store/models.py:120 | deleting an unordered product with its cascades keeps all tables consistent |
| Database.ProductsRewriteKeepsValid | store/admin.py:92-96 | rewriting product rows in place, valid and in existing collections, keeps all tables consistent |
| Database.Db.constructor | store/models.py:15-142 | an empty store is consistent |
| Database.Db.InsertCustomer | store/models.py:60-64 | refused exactly when the user already has a customer row, changing nothing; otherwise a new customer under the next key with membership Bronze |
| Database.Db.InsertCollection | store/serializers.py:99-102 | a new collection gets a fresh id and features no product |
| Database.Db.InsertProduct | store/serializers.py:73-77 | a valid product in an existing collection is stored under a fresh id |
| Database.Db.SetProduct | store/serializers.py:83 | saving a valid product row replaces exactly that row |
| Database.Db.InsertReview | store/serializers.py:119-122 | a review of an existing product is stored under a fresh id |
| Database.Db.NewCartItemId | store/serializers.py:175 | inserting a line consumes the next cart-line key |
| Database.Db.SetCartLines | store/serializers.py:172 | writing valid lines of an existing cart replaces exactly that cart's lines |
| Database.Db.InsertOrder | store/serializers.py:214-229 | an order of a known customer with valid lines is stored under a fresh id |
| Database.Db.SetOrder | store/serializers.py:236-239 | saving an order row replaces exactly that row |
| Database.Db.CreateCart | store/models.py:124-126 | a new cart under an unused UUID starts with no lines |
| Database.Db.DeleteCart | store/models.py:129 | deleting a cart removes it with all its lines; a missing cart is not found |
| Database.Db.DeleteProduct | store/models.py:120 | a missing product is not found; an ordered product is protected and nothing changes; otherwise the product goes with its lines and reviews, and no collection features it |
| Database.Db.RemoveProduct | store/models.py:130 | the delete of an unordered product applies the three cascades and keeps the tables consistent |
| Database.Db.DeleteCollection | store/models.py:41 | a missing collection is not found; a collection with products is protected and nothing changes; otherwise it is removed |
| Serializers.ValidateProductId | store/serializers.py:159-162 | accepts exactly the ids of catalog products, unchanged, and refuses every other id |
| Serializers.ValidateQuantity | store/models.py:131-133 | accepts exactly the quantities 1..32767 |
| Serializers.AddCartItem | store/serializers.py:159-176 | refuses an unknown product, a bad quantity, a missing cart and a raise beyond the column's range, changing nothing; succeeds exactly when none of these applies, and then upserts the line, consumes a key only on insert, returns the id of the product's line and leaves other carts as they were |
| Serializers.UpdateCartItem | store/serializers.py:183-186 | a line not in the cart is not found and a bad quantity is refused; succeeds exactly when the line is in the cart and any given quantity is valid; then a given quantity replaces only that line's, and a request without one changes nothing |
| Serializers.RemoveCartItem | store/views.py:97-99 | a line not in the cart is not found; otherwise the cart keeps exactly its other lines and other carts are unchanged |
| Serializers.CreateOrder | store/serializers.py:210-233 | an unknown customer changes nothing; otherwise one new Pending order with the frozen lines, the cart deleted, other carts unchanged, one order_created event; a missing cart gives an order without lines |
| Serializers.OrderKeepsCartTotal | store/serializers.py:219-226 | a placed order has one line per cart line and is worth what the cart was, at least 1.00 per line |
| Serializers.UpdatePaymentStatus | store/serializers.py:236-239 | a missing order is not found, a letter outside P/C/F is refused; succeeds exactly for an existing order with no letter or one of P/C/F; then only that order's status changes, to the given one or not at all when none is given |
| Serializers.ValidateProductFields | store/serializers.py:51-54 | accepts exactly the data whose carried fields are valid, titles and slugs not blank, and, unless partial, complete; a refusal names the error of a failing field before which every field in the serializer's order (title, slug, inventory, unit_price, collection) passes |
| Serializers.FirstErrorIsFirst | store/serializers.py:51-54 | the first error found is that of a failing field before which every field passes, and there is none exactly when every field passes |
| Serializers.NoFieldErrorIffValid | store/serializers.py:51-54 | no field fails exactly when the carried fields are valid and, unless partial, complete |
| Serializers.NewProduct | store/serializers.py:73-77 | the created product carries exactly the requested fields, with no description when none is given |
| Serializers.UpdateAsWritten | store/serializers.py:79-84 | as written, the update fails with a NULL write exactly when unit_price, title or inventory is absent, and never changes slug, description or collection |
| Serializers.ApplyUpdate | store/serializers.py:79-84 | the corrected update keeps a product valid when the carried price and inventory are valid |
| Serializers.UpdateAsWrittenRejectsRename | store/serializers.py:79-84 | a PATCH carrying only a title fails with a NULL write as written, where it should rename the product |
| Serializers.UpdateAsWrittenKeepsCollection | store/serializers.py:79-84 | a full PUT moving a product to another collection succeeds as written but leaves the collection unchanged |
| Serializers.ApplyUpdateProperties | store/serializers.py:79-84 | the corrected update keeps omitted fields, is idempotent, keeps the product valid, and agrees with the code wherever the code succeeds and writes every field it could |
| Serializers.CreateProduct | store/serializers.py:73-77 | invalid or incomplete data is refused with its first error and nothing changes; otherwise exactly the new product is added, under the next key |
| Serializers.UpdateProduct | store/serializers.py:79-84 | a missing product is not found, invalid data is refused with its first error; succeeds exactly for an existing product and valid data; then only that product changes, by the corrected update, and no order changes |
| Serializers.UpdateProductAsWritten | store/serializers.py:79-84 | as written: a missing product is not found and invalid data refused with its first error; valid data that omits unit_price, title or inventory fails with a NULL write; succeeds exactly otherwise, saving only the three assigned fields; a failure changes nothing |
| Serializers.CreateCollection | store/serializers.py:99-102 | a missing title is refused as missing and an empty one as blank, changing nothing; otherwise exactly one new collection with that title and no featured product, under the next key |
| Serializers.CreateReview | store/serializers.py:114-122 | name, then description, is refused when missing or blank; then a missing product is not found; succeeds exactly when both are given, non-blank, on an existing product, adding exactly one review of that product under the next key |
| Permissions.IsAdminOrReadOnly | store/permissions.py:4-8 | safe methods are always permitted; any other method exactly when the user is staff |
| Permissions.ViewCustomerHistory | store/permissions.py:17-19 | permitted exactly when the user holds store.view_history, or is a superuser |
| Permissions.Codenames | store/permissions.py:12 | the permission names are the actions' names on the model, one per action, in order |
| Permissions.DefaultPermsMap | store/permissions.py:10-12 | the framework's table has an entry for every method but TRACE, and requires nothing exactly for the safe methods |
| Permissions.RequiredPermissions | store/permissions.py:10-12 | a method without an entry is not allowed; otherwise the entry's permission names are required |
| Permissions.HasModelPermission | store/permissions.py:10-12 | the anonymous user is refused; a method without an entry is not allowed; otherwise permitted exactly when the user holds every required permission |
| Permissions.PermsMap.constructor | store/permissions.py:10 | the table starts as the framework's table |
| Permissions.PermsMap.RequireViewForGet | store/permissions.py:12 | the GET entry becomes the view action; nothing else in the table changes |
| Permissions.FullModelPermissions.constructor | store/permissions.py:10-12 | construction rewrites the GET entry of the shared table |
| Permissions.FullModelPermissions.HasPermission | store/permissions.py:10-12 | the anonymous user is refused; with the rewritten table a logged-in user may GET exactly with the model's view permission |
| Permissions.FullTableRequiresView | store/permissions.py:10-12 | with the rewritten table, GET needs exactly `<app>.view_<model>`, where the original lets any logged-in user read; other methods are unaffected; TRACE is not allowed |
| Views.DestroyProduct | store/views.py:59-63 | an ordered product is refused with 405 and nothing changes; a missing product is 404; 204 exactly for an existing unordered product, which is deleted with its cascades |
| Views.DeleteCollection | store/views.py:71-76 | 404 exactly for a missing collection, 405 exactly while it has products, changing nothing; otherwise 204 and it is removed |
| Views.ValidateCartId | store/views.py:177-184 | refuses a missing cart and a cart without lines, with their own errors; otherwise returns the id unchanged |
| Views.Create | store/views.py:187-197 | as written: fails exactly for an unknown customer, changing nothing; otherwise adds a Pending order under the next key holding the frozen lines of the cart (none for a missing cart), deletes the cart and records the order_created event; so every cart the cart check refuses still gives an order without lines |
| Views.Checkout | store/views.py:177-197 | with the check applied, a refused cart or unknown customer changes nothing; succeeds exactly for a cart with lines and a known customer, giving a Pending order under the next key with one line per cart line, worth the cart's total, with the cart gone |
| Views.OrderPermission | store/views.py:172-175 | PATCH and DELETE need an admin user, every other method an authenticated user |
| Views.OrderAccess | store/views.py:170-175 | refused exactly when the method's permission class does not grant it, otherwise not allowed exactly for a method outside `http_method_names`, and permitted otherwise |
| Views.OrderAccessRules | store/views.py:170-175 | staff only for PATCH/DELETE, any logged-in user for GET/HEAD/OPTIONS/POST, the anonymous user never, PUT never accepted |
| Views.CartItemsSerializerClass | store/views.py:102-109 | AddCartItemSerializer exactly for POST, UpdateCartItemSerializer exactly for PATCH, CartItemSerializer otherwise |
| Views.OrdersSerializerClass | store/views.py:200-207 | CreateOrderSerializer exactly for POST, UpdateOrderSerializer exactly for PATCH, OrderSerializer otherwise |
| Views.SerializerChoice | store/views.py:200-207 | both viewsets choose the create serializer for POST, the update serializer for PATCH and the read serializer otherwise; safe methods never get a writing serializer |
| Views.VisibleOrders | store/views.py:211-220 | staff see all orders; a non-staff user without a customer row gets DoesNotExist; never more than the existing orders |
| Views.VisibleOrdersOwn | store/views.py:211-220 | a non-staff user sees exactly the orders of their own customer and none of another's |
| Views.ReviewsOf | store/views.py:82-83 | the listing holds exactly the reviews of the product in the URL |
| Views.ReviewsPartition | store/views.py:82-83 | the listings of two products are disjoint, and every review is listed under its product |
| Admin.InventoryStatus | store/admin.py:84-89 | "Low" exactly when inventory is below 10, "Ok" exactly otherwise |
| Admin.InventoryQueryset | store/admin.py:23-25 | filters exactly when `<10` is selected, keeping exactly the shown products with inventory below 10 |
| Admin.InventoryFilterIsLowStatus | store/admin.py:19-25 | one filter option, `<10`, which keeps exactly the shown products whose status is Low; any other value does not filter |
| Admin.ClearedInventoryProperties | store/admin.py:92-94 | every selected product gets inventory 0, hence status Low, and no other field changes; unselected products are unchanged |
| Admin.ClearedInventory | store/admin.py:94 | the same products, with inventory 0 for the selected ones and unchanged for the others |
| Admin.ClearInventory | store/admin.py:92-96 | the products become the cleared map, the tables stay consistent, and the reported count is the number of selected products that exist |

## Left out

- Timestamps (`placed_at`, `last_update`, `created_at`, review `date`) and `birth_date` are not modelled: they are clock readings with no rule attached.
- String lengths (`max_length`), slug syntax and the UUID format are not checked: strings are unbounded `seq<char>`. The refusal of the empty string by text fields without `blank=True` is modelled (`BlankField`). Text values are taken after the trimming of surrounding whitespace that the framework's `CharField` applies by default, so a whitespace-only value arrives as `""` and the trimming itself is not modelled.
- Promotions, addresses, customer first and last names, and the admin's display columns, links, search and pagination are declarative configuration with no rule to prove.
- `ProductSerializer.calculate_tax` multiplies by a binary float, `Decimal(1.1)`, so it is left out.
- The order_created signal is an append to `Db.events`. Its receivers, and the text of responses and admin messages, are output.
- The customer of a request is a parameter. The code looks it up with `(customer, create) = Customer.objects.get(...)`, which unpacks a single object into a tuple and so cannot work. For the same reason `CustomerViewSet.me` is not modelled.
- New cart UUIDs are supplied by the caller, because random generation is not part of the model.
- `transaction.atomic` and concurrent requests are not modelled: each operation is one sequential step.
- Validation stops at the first failing field, in the serializer's field order; the framework collects all failing fields in one response.
- Users are taken to be active accounts, with their group permissions already merged into `perms`.
- Views.DeleteCollection: it models `CollectionViewSet.delete` as written. The router sends DELETE to the inherited `destroy`, which ends in the same PROTECT refusal but answers with a server error instead of 405.
- Deleting an order through `OrderViewSet` is not modelled. OrderItem.order's PROTECT refuses it for any order with lines.
- `CollectionSerializer.update` has the same `validated_data.get` pattern as `ProductSerializer.update`. It is not modelled separately.
- Permissions.FullModelPermissions.constructor: the rewritten table is the framework's class-level table, so the rewrite also reaches every other user of model permissions. The model passes that shared table in explicitly; nothing else in the app reads it.
- Serializers.AddCartItem: a missing cart is refused with CartNotFound. In the code it reaches `CartItem.objects.create`, whose foreign key fails with an IntegrityError, a server error rather than a 404; the tables are left unchanged either way.
- Serializers.CreateReview: a review for a product that does not exist is refused with ProductNotFound. In the code `Review.objects.create(product_id=...)` fails its foreign key with an IntegrityError, a server error rather than a 404; the tables are left unchanged either way.
- Serializers.UpdateProduct: it does not follow the code as written. It writes every field the request carries, which is the intended update; the code as written is `Serializers.UpdateProductAsWritten`, built on `Serializers.UpdateAsWritten`.
- Serializers.AddCartItem: a raise beyond 32767 is refused with QuantityOutOfRange. This assumes the database enforces the PositiveSmallIntegerField range, because `save()` does not run validators.
- The in-cart uniqueness of line ids is modelled. The table-wide uniqueness of CartItem primary keys across carts is not.
- `CartItemsViewSet.http_method_names` leaves out PUT, HEAD and OPTIONS; the model has none of them on cart lines, and a PATCH is always partial.
- `CustomerViewSet.history`, `CartViewSet` retrieve and the serializers' read-only field lists are framework dispatch with no logic of their own.

## Findings

| source | as written | input that shows it | evidently intended | confidence | as-written member | corrected member |
|---|---|---|---|---|---|---|
| store/views.py:177-197 | `validate_cart_id` is a method of the viewset, which the framework never calls, and `create` calls `CreateOrderSerializer.save` directly | POST to the orders endpoint with `cart_id` a UUID that no cart has (or an empty cart) by a user with a customer row, taking that customer's id as given (as written, the tuple unpacking at store/serializers.py:213 fails first; see Left out): a Pending order without lines is created | a missing cart is refused as not found and an empty cart as empty, before any order is created | high (not executed) | Views.Create | Views.Checkout |
| store/serializers.py:79-84 | `update` assigns `unit_price`, `title` and `inventory` from `validated_data.get(...)` and writes no other field | PATCH `{"title": "Desk"}` on a product: `unit_price` becomes None and the save fails on the NOT NULL column; PUT with a different `collection` reports success and keeps the old collection | every field the request carries is written and every other field is kept | high (not executed) | Serializers.UpdateAsWrittenRejectsRename | Serializers.ApplyUpdateProperties |
