/**
 * The view logic of store/views.py: the guarded deletes, the order
 * endpoints' permissions, serializer choice and row scoping, the cart check
 * of OrderViewSet, and the listings scoped by the URL's parent object.
 */
module Views {
  import opened Models
  import opened CartLines
  import opened Database
  import opened Serializers
  import opened Permissions

  /** The HTTP outcome of a view. */
  datatype Status = Success | NoContent | Denied | NotFound | NotAllowed

  /**
   * ProductViewSet.destroy: a product that some order line refers to is
   * refused with 405 before anything else; otherwise the framework's destroy
   * answers 404 for a missing product or deletes it with 204.
   */
  method DestroyProduct(db: Db, pk: ProductId) returns (s: Status)
    requires db.Valid()
    modifies db`products, db`carts, db`reviews, db`collections
    ensures db.Valid()
    ensures OrderedProduct(db.orders, pk) ==> s == NotAllowed
    ensures !OrderedProduct(db.orders, pk) && pk !in old(db.products) ==> s == NotFound
    ensures s == NoContent <==> pk in old(db.products) && !OrderedProduct(db.orders, pk)
    ensures s == NotAllowed || s == NotFound || s == NoContent
    ensures s != NoContent ==>
      && db.products == old(db.products) && db.carts == old(db.carts)
      && db.reviews == old(db.reviews) && db.collections == old(db.collections)
    ensures s == NoContent ==>
      && pk in old(db.products) && !OrderedProduct(db.orders, pk)
      && db.products == old(db.products) - {pk}
      && db.carts == CascadeCarts(old(db.carts), pk)
      && db.reviews == CascadeReviews(old(db.reviews), pk)
      && db.collections == CascadeCollections(old(db.collections), pk)
  {
    if OrderedProduct(db.orders, pk) {
      return NotAllowed;
    }
    var r := db.DeleteProduct(pk);
    s := if r.Ok? then NoContent else NotFound;
  }

  /**
   * CollectionViewSet.delete: 404 for a missing collection, 405 while some
   * product belongs to it, otherwise the collection is deleted with 204.
   */
  method DeleteCollection(db: Db, pk: CollectionId) returns (s: Status)
    requires db.Valid()
    modifies db`collections
    ensures db.Valid()
    ensures pk !in old(db.collections) <==> s == NotFound
    ensures pk in old(db.collections) && CollectionInUse(db.products, pk) <==> s == NotAllowed
    ensures s == NotFound || s == NotAllowed || s == NoContent
    ensures s != NoContent ==> db.collections == old(db.collections)
    ensures s == NoContent ==> db.collections == old(db.collections) - {pk}
  {
    var r := db.DeleteCollection(pk);
    s := if r.Ok? then NoContent else if r.error == CollectionNotFound then NotFound else NotAllowed;
  }

  /** OrderViewSet.validate_cart_id: the cart must exist and hold a line; the id is kept as given. */
  function ValidateCartId(carts: map<Uuid, seq<CartItem>>, cart: Uuid): (r: Result<Uuid>)
    ensures r.Ok? <==> cart in carts && |carts[cart]| > 0
    ensures r.Ok? ==> r.value == cart
    ensures cart !in carts ==> r == Err(CartNotFound)
    ensures cart in carts && carts[cart] == [] ==> r == Err(CartEmpty)
  {
    if cart !in carts then Err(CartNotFound)
    else if |carts[cart]| == 0 then Err(CartEmpty)
    else Ok(cart)
  }

  /**
   * OrderViewSet.create as written: the serializer's save runs without
   * validate_cart_id, so every cart that check refuses still yields an order,
   * one without lines.
   */
  method Create(db: Db, cart: Uuid, customer: CustomerId) returns (r: Result<OrderId>)
    requires db.Valid()
    modifies db`orders, db`nextOrderId, db`carts, db`events
    ensures db.Valid()
    ensures r.Err? <==> customer !in db.customers
    ensures r.Err? ==>
      && r.error == CustomerNotFound
      && db.orders == old(db.orders) && db.nextOrderId == old(db.nextOrderId)
      && db.carts == old(db.carts) && db.events == old(db.events)
    ensures r.Ok? ==>
      && r.value == old(db.nextOrderId) && r.value !in old(db.orders)
      && db.orders == old(db.orders)[r.value := Order(customer, Pending,
                                                       FreezeLines(CartItemsOf(old(db.carts), cart), db.products))]
      && db.nextOrderId == old(db.nextOrderId) + 1
      && db.carts == old(db.carts) - {cart}
      && db.events == old(db.events) + [r.value]
    ensures customer in db.customers && ValidateCartId(old(db.carts), cart).Err? ==>
              r.Ok? && r.value in db.orders && db.orders[r.value].items == []
  {
    r := CreateOrder(db, cart, customer);
  }

  /**
   * Checkout with the cart check applied before the save: a missing or empty
   * cart is refused and nothing changes; otherwise the order holds one line
   * per cart line at the current prices and is worth what the cart was.
   */
  method Checkout(db: Db, cart: Uuid, customer: CustomerId) returns (r: Result<OrderId>)
    requires db.Valid()
    modifies db`orders, db`nextOrderId, db`carts, db`events
    ensures db.Valid()
    ensures ValidateCartId(old(db.carts), cart).Err? ==> r == Err(ValidateCartId(old(db.carts), cart).error)
    ensures ValidateCartId(old(db.carts), cart).Ok? && customer !in db.customers ==> r == Err(CustomerNotFound)
    ensures r.Ok? <==> ValidateCartId(old(db.carts), cart).Ok? && customer in db.customers
    ensures r.Err? ==>
      && db.orders == old(db.orders) && db.carts == old(db.carts)
      && db.events == old(db.events) && db.nextOrderId == old(db.nextOrderId)
    ensures r.Ok? ==>
      && cart in old(db.carts) && |old(db.carts)[cart]| > 0 && customer in db.customers
      && r.value == old(db.nextOrderId) && r.value !in old(db.orders) && r.value in db.orders
      && db.orders == old(db.orders)[r.value := Order(customer, Pending, FreezeLines(old(db.carts)[cart], db.products))]
      && db.nextOrderId == old(db.nextOrderId) + 1
      && |db.orders[r.value].items| == |old(db.carts)[cart]| > 0
      && OrderTotal(db.orders[r.value].items) == CartTotal(old(db.carts)[cart], db.products)
      && cart !in db.carts && db.carts == old(db.carts) - {cart}
      && db.events == old(db.events) + [r.value]
  {
    var checked := ValidateCartId(db.carts, cart);
    if checked.Err? {
      return Err(checked.error);
    }
    FrozenTotal(db.carts[cart], db.products);
    r := CreateOrder(db, cart, customer);
  }

  /** OrderViewSet's permission classes. */
  datatype PermissionClass = IsAdminUser | IsAuthenticated

  /** OrderViewSet.get_permissions: PATCH and DELETE are for admins, the rest for logged-in users. */
  function OrderPermission(m: HttpMethod): (r: PermissionClass)
    ensures r == IsAdminUser <==> m == PATCH || m == DELETE
  {
    if m == PATCH || m == DELETE then IsAdminUser else IsAuthenticated
  }

  function Grants(p: PermissionClass, user: User): bool
  {
    match p
    case IsAdminUser => user.IsStaff()
    case IsAuthenticated => user.IsAuthenticated()
  }

  /** The methods OrderViewSet accepts (http_method_names). */
  predicate OrderMethod(m: HttpMethod)
  {
    m in {GET, POST, PATCH, DELETE, HEAD, OPTIONS}
  }

  /** An order request is checked for permission first, then for an accepted method. */
  function OrderAccess(m: HttpMethod, user: User): (s: Status)
    ensures s == Denied <==> !Grants(OrderPermission(m), user)
    ensures s == NotAllowed <==> Grants(OrderPermission(m), user) && !OrderMethod(m)
    ensures s == Success <==> Grants(OrderPermission(m), user) && OrderMethod(m)
  {
    if !Grants(OrderPermission(m), user) then Denied
    else if !OrderMethod(m) then NotAllowed
    else Success
  }

  /**
   * Orders are changed or deleted only by staff, read and placed by any
   * logged-in user, never reached by the anonymous user, and PUT is never
   * accepted.
   */
  lemma OrderAccessRules(m: HttpMethod, user: User)
    ensures OrderAccess(m, Anonymous) == Denied
    ensures (m == PATCH || m == DELETE) ==> (OrderAccess(m, user) == Success <==> user.IsStaff())
    ensures m in {GET, HEAD, OPTIONS, POST} ==> (OrderAccess(m, user) == Success <==> user.IsAuthenticated())
    ensures OrderAccess(m, user) == Success ==> OrderMethod(m) && user.IsAuthenticated()
    ensures user.IsAuthenticated() ==> OrderAccess(PUT, user) == NotAllowed
  {
  }

  datatype SerializerClass =
    | AddCartItemSerializer | UpdateCartItemSerializer | CartItemSerializer
    | CreateOrderSerializer | UpdateOrderSerializer | OrderSerializer

  /** Serializers that write rows, as opposed to the read serializers. */
  predicate Writes(c: SerializerClass)
  {
    c in {AddCartItemSerializer, UpdateCartItemSerializer, CreateOrderSerializer, UpdateOrderSerializer}
  }

  /** CartItemsViewSet.get_serializer_class. */
  function CartItemsSerializerClass(m: HttpMethod): (c: SerializerClass)
    ensures c == AddCartItemSerializer <==> m == POST
    ensures c == UpdateCartItemSerializer <==> m == PATCH
    ensures c == CartItemSerializer <==> m != POST && m != PATCH
  {
    if m == POST then AddCartItemSerializer
    else if m == PATCH then UpdateCartItemSerializer
    else CartItemSerializer
  }

  /** OrderViewSet.get_serializer_class. */
  function OrdersSerializerClass(m: HttpMethod): (c: SerializerClass)
    ensures c == CreateOrderSerializer <==> m == POST
    ensures c == UpdateOrderSerializer <==> m == PATCH
    ensures c == OrderSerializer <==> m != POST && m != PATCH
  {
    if m == POST then CreateOrderSerializer
    else if m == PATCH then UpdateOrderSerializer
    else OrderSerializer
  }

  /**
   * Both viewsets pick a create serializer for POST, an update serializer
   * for PATCH and their read serializer for every other method, so a safe
   * method never gets a serializer that writes.
   */
  lemma SerializerChoice(m: HttpMethod)
    ensures Writes(CartItemsSerializerClass(m)) <==> m == POST || m == PATCH
    ensures Writes(OrdersSerializerClass(m)) <==> m == POST || m == PATCH
    ensures IsSafeMethod(m) ==> CartItemsSerializerClass(m) == CartItemSerializer && OrdersSerializerClass(m) == OrderSerializer
    ensures (CartItemsSerializerClass(m) == AddCartItemSerializer) == (OrdersSerializerClass(m) == CreateOrderSerializer)
    ensures (CartItemsSerializerClass(m) == UpdateCartItemSerializer) == (OrdersSerializerClass(m) == UpdateOrderSerializer)
  {
  }

  /**
   * OrderViewSet.get_queryset: staff see every order; anyone else sees the
   * orders of the customer row of their user, and a user without one gets
   * the lookup's DoesNotExist.
   */
  function VisibleOrders(orders: map<OrderId, Order>, customers: map<CustomerId, Customer>, user: User)
    : (r: Result<set<OrderId>>)
    ensures user.IsStaff() ==> r == Ok(orders.Keys)
    ensures !user.IsStaff() && (user.Anonymous? || !HasCustomer(customers, user.id)) ==> r == Err(CustomerNotFound)
    ensures r.Ok? ==> r.value <= orders.Keys
  {
    if user.IsStaff() then Ok(orders.Keys)
    else if user.Anonymous? || !HasCustomer(customers, user.id) then Err(CustomerNotFound)
    else Ok(set o | o in orders && orders[o].customer in customers && customers[orders[o].customer].user == user.id)
  }

  /** A user who is not staff sees exactly the orders of their own customer row. */
  lemma VisibleOrdersOwn(orders: map<OrderId, Order>, customers: map<CustomerId, Customer>, user: User, c: CustomerId)
    requires CustomersValid(customers)
    requires forall o :: o in orders ==> orders[o].customer in customers
    requires user.Account? && !user.isStaff
    requires c in customers && customers[c].user == user.id
    ensures VisibleOrders(orders, customers, user) == Ok(set o | o in orders && orders[o].customer == c)
    ensures forall o :: o in orders && orders[o].customer != c ==> o !in VisibleOrders(orders, customers, user).value
  {
    var r := VisibleOrders(orders, customers, user);
    assert HasCustomer(customers, user.id);
    var own := set o | o in orders && orders[o].customer == c;
    forall o | o in orders ensures o in r.value <==> o in own {
      if o in r.value {
        assert customers[orders[o].customer].user == customers[c].user;
      }
    }
    assert r.value == own;
    assert r == Ok(own);
  }

  /** ReviewViewSet.get_queryset: the reviews of the product named in the URL. */
  function ReviewsOf(reviews: map<ReviewId, Review>, product: ProductId): (r: set<ReviewId>)
    ensures forall v :: v in r <==> v in reviews && reviews[v].product == product
  {
    set v | v in reviews && reviews[v].product == product
  }

  /** Each review is listed under its own product and under no other. */
  lemma ReviewsPartition(reviews: map<ReviewId, Review>, p: ProductId, q: ProductId)
    ensures p != q ==> ReviewsOf(reviews, p) * ReviewsOf(reviews, q) == {}
    ensures forall v :: v in reviews ==> v in ReviewsOf(reviews, reviews[v].product)
  {
    if p != q {
      assert forall v :: v in ReviewsOf(reviews, p) ==> v !in ReviewsOf(reviews, q);
    }
  }
}
