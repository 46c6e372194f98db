/**
 * The store's tables, held in memory, and the integrity the schema of
 * store/models.py gives them: every foreign key resolves, field validators
 * and column ranges hold, (cart, product) is unique, a user has at most one
 * customer. Deletes follow the `on_delete` rules: CASCADE, SET_NULL, PROTECT.
 */
module Database {
  import opened Models
  import opened CartLines

  /** Unit prices and inventories are in range; every product's collection exists. */
  ghost predicate CatalogValid(collections: map<CollectionId, Collection>, products: map<ProductId, Product>)
  {
    && (forall c :: c in collections ==> FeaturedInCatalog(collections[c], products))
    && (forall p :: p in products ==> ValidProduct(products[p]) && products[p].collection in collections)
  }

  predicate FeaturedInCatalog(c: Collection, products: map<ProductId, Product>)
  {
    c.featuredProduct.Some? ==> c.featuredProduct.value in products
  }

  ghost predicate CartsValid(carts: map<Uuid, seq<CartItem>>, products: map<ProductId, Product>, nextItem: nat)
  {
    forall c :: c in carts ==> ValidLines(carts[c]) && InCatalog(carts[c], products) && IdsBelow(carts[c], nextItem)
  }

  /** Customer.user is a OneToOneField. */
  ghost predicate CustomersValid(customers: map<CustomerId, Customer>)
  {
    forall a, b :: a in customers && b in customers && a != b ==> customers[a].user != customers[b].user
  }

  ghost predicate OrdersValid(orders: map<OrderId, Order>, customers: map<CustomerId, Customer>,
                              products: map<ProductId, Product>)
  {
    forall o :: o in orders ==>
      && orders[o].customer in customers
      && forall x :: x in orders[o].items ==> ValidOrderItem(x) && x.product in products
  }

  ghost predicate ReviewsValid(reviews: map<ReviewId, Review>, products: map<ProductId, Product>)
  {
    forall r :: r in reviews ==> reviews[r].product in products
  }

  /** Every key an auto-increment table holds was handed out before `bound`. */
  ghost predicate KeysBelow<V>(m: map<nat, V>, bound: nat)
  {
    forall k :: k in m ==> k < bound
  }

  /** The integrity of all tables together, given the next value of each key sequence. */
  ghost predicate TablesValid(collections: map<CollectionId, Collection>, products: map<ProductId, Product>,
                              customers: map<CustomerId, Customer>, orders: map<OrderId, Order>,
                              carts: map<Uuid, seq<CartItem>>, reviews: map<ReviewId, Review>,
                              nextCollectionId: nat, nextProductId: nat, nextCustomerId: nat,
                              nextOrderId: nat, nextCartItemId: nat, nextReviewId: nat)
  {
    && CatalogValid(collections, products)
    && CartsValid(carts, products, nextCartItemId)
    && CustomersValid(customers)
    && OrdersValid(orders, customers, products)
    && ReviewsValid(reviews, products)
    && KeysBelow(collections, nextCollectionId)
    && KeysBelow(products, nextProductId)
    && KeysBelow(customers, nextCustomerId)
    && KeysBelow(orders, nextOrderId)
    && KeysBelow(reviews, nextReviewId)
  }

  /**
   * The lines of a cart, as `CartItem.objects.filter(cart_id=…)` reads them;
   * a cart that does not exist has none.
   */
  function CartItemsOf(carts: map<Uuid, seq<CartItem>>, cart: Uuid): (r: seq<CartItem>)
    ensures forall x :: x in r <==> cart in carts && x in carts[cart]
  {
    if cart in carts then carts[cart] else []
  }

  /** The user already has a customer row (Customer.user). */
  predicate HasCustomer(customers: map<CustomerId, Customer>, user: UserId)
  {
    exists c :: c in customers && customers[c].user == user
  }

  /** Some order line refers to `p` (OrderItem.product is PROTECT). */
  predicate OrderedProduct(orders: map<OrderId, Order>, p: ProductId)
  {
    exists o, x :: o in orders && x in orders[o].items && x.product == p
  }

  /** Some product belongs to `c` (Product.collection is PROTECT). */
  predicate CollectionInUse(products: map<ProductId, Product>, c: CollectionId)
  {
    exists p :: p in products && products[p].collection == c
  }

  /** Collection.featured_product is SET_NULL. */
  function Unfeature(c: Collection, p: ProductId): (r: Collection)
    ensures r.title == c.title
    ensures r.featuredProduct == if c.featuredProduct == Some(p) then None else c.featuredProduct
  {
    if c.featuredProduct == Some(p) then c.(featuredProduct := None) else c
  }

  /** Every cart after the cascade of deleting product `p`. */
  function CascadeCarts(carts: map<Uuid, seq<CartItem>>, p: ProductId): map<Uuid, seq<CartItem>>
  {
    map c | c in carts :: WithoutProduct(carts[c], p)
  }

  /** The reviews that survive deleting product `p`. */
  function CascadeReviews(reviews: map<ReviewId, Review>, p: ProductId): map<ReviewId, Review>
  {
    map v | v in reviews && reviews[v].product != p :: reviews[v]
  }

  /** Every collection after deleting product `p`: none still features it. */
  function CascadeCollections(collections: map<CollectionId, Collection>, p: ProductId): map<CollectionId, Collection>
  {
    map c | c in collections :: Unfeature(collections[c], p)
  }

  /**
   * What deleting product `p` leaves behind: every cart, with exactly its
   * lines for other products; exactly the reviews of other products; every
   * collection, featuring `p` no longer and otherwise as it was.
   */
  lemma CascadeRemovesProduct(collections: map<CollectionId, Collection>, carts: map<Uuid, seq<CartItem>>,
                              reviews: map<ReviewId, Review>, p: ProductId)
    ensures CascadeCarts(carts, p).Keys == carts.Keys
    ensures forall c, x :: c in carts ==> (x in CascadeCarts(carts, p)[c] <==> x in carts[c] && x.product != p)
    ensures forall v :: v in CascadeReviews(reviews, p) <==> v in reviews && reviews[v].product != p
    ensures forall v :: v in CascadeReviews(reviews, p) ==> CascadeReviews(reviews, p)[v] == reviews[v]
    ensures CascadeCollections(collections, p).Keys == collections.Keys
    ensures forall c :: c in collections ==>
              && CascadeCollections(collections, p)[c].featuredProduct != Some(p)
              && CascadeCollections(collections, p)[c].title == collections[c].title
              && (collections[c].featuredProduct != Some(p) ==> CascadeCollections(collections, p)[c] == collections[c])
  {
  }

  lemma CascadeKeepsCatalog(collections: map<CollectionId, Collection>, products: map<ProductId, Product>, p: ProductId)
    requires CatalogValid(collections, products)
    ensures CatalogValid(CascadeCollections(collections, p), products - {p})
  {
  }

  lemma CascadeKeepsCarts(carts: map<Uuid, seq<CartItem>>, products: map<ProductId, Product>, p: ProductId, nextItem: nat)
    requires CartsValid(carts, products, nextItem)
    ensures CartsValid(CascadeCarts(carts, p), products - {p}, nextItem)
  {
    var r := CascadeCarts(carts, p);
    forall c | c in r
      ensures ValidLines(r[c]) && InCatalog(r[c], products - {p}) && IdsBelow(r[c], nextItem)
    {
      WithoutProductKeepsLines(carts[c], p, products, nextItem);
    }
  }

  lemma UnorderedKeepsOrders(orders: map<OrderId, Order>, customers: map<CustomerId, Customer>,
                             products: map<ProductId, Product>, p: ProductId)
    requires OrdersValid(orders, customers, products)
    requires !OrderedProduct(orders, p)
    ensures OrdersValid(orders, customers, products - {p})
  {
    forall o, x | o in orders && x in orders[o].items ensures x.product in products - {p} {
      assert !(o in orders && x in orders[o].items && x.product == p);
    }
  }

  /**
   * Deleting an unordered product, with its cascades, keeps every table
   * consistent: `db` holds the tables after the delete, the other
   * parameters the four tables it changed as they were before.
   */
  lemma DeleteProductKeepsValid(db: Db, collections: map<CollectionId, Collection>, products: map<ProductId, Product>,
                                carts: map<Uuid, seq<CartItem>>, reviews: map<ReviewId, Review>, p: ProductId)
    requires TablesValid(collections, products, db.customers, db.orders, carts, reviews,
                         db.nextCollectionId, db.nextProductId, db.nextCustomerId, db.nextOrderId,
                         db.nextCartItemId, db.nextReviewId)
    requires !OrderedProduct(db.orders, p)
    requires db.collections == CascadeCollections(collections, p) && db.products == products - {p}
    requires db.carts == CascadeCarts(carts, p) && db.reviews == CascadeReviews(reviews, p)
    ensures db.Valid()
  {
    CascadeKeepsCatalog(collections, products, p);
    CascadeKeepsCarts(carts, products, p, db.nextCartItemId);
    UnorderedKeepsOrders(db.orders, db.customers, products, p);
  }

  /**
   * Rewriting product rows in place, keeping their keys, keeps every table
   * consistent as long as each row stays valid and in an existing collection:
   * `db` holds the tables after the rewrite, `products` the rows before it.
   */
  lemma ProductsRewriteKeepsValid(db: Db, products: map<ProductId, Product>)
    requires TablesValid(db.collections, products, db.customers, db.orders, db.carts, db.reviews,
                         db.nextCollectionId, db.nextProductId, db.nextCustomerId, db.nextOrderId,
                         db.nextCartItemId, db.nextReviewId)
    requires db.products.Keys == products.Keys
    requires forall p :: p in db.products ==> ValidProduct(db.products[p]) && db.products[p].collection in db.collections
    ensures db.Valid()
  {
    assert forall p :: p in products <==> p in db.products;
  }

  class Db {
    var collections: map<CollectionId, Collection>
    var products: map<ProductId, Product>
    var customers: map<CustomerId, Customer>
    var orders: map<OrderId, Order>
    var carts: map<Uuid, seq<CartItem>>
    var reviews: map<ReviewId, Review>

    /** The next value of each table's auto-increment key. */
    var nextCollectionId: nat
    var nextProductId: nat
    var nextCustomerId: nat
    var nextOrderId: nat
    var nextCartItemId: nat
    var nextReviewId: nat

    /** The orders announced through the order_created signal, oldest first. */
    var events: seq<OrderId>

    ghost predicate Valid()
      reads this
    {
      TablesValid(collections, products, customers, orders, carts, reviews,
                  nextCollectionId, nextProductId, nextCustomerId, nextOrderId, nextCartItemId, nextReviewId)
    }

    constructor ()
      ensures Valid()
      ensures collections == map[] && products == map[] && customers == map[]
      ensures orders == map[] && carts == map[] && reviews == map[] && events == []
    {
      collections, products, customers, orders, carts, reviews := map[], map[], map[], map[], map[], map[];
      nextCollectionId, nextProductId, nextCustomerId := 0, 0, 0;
      nextOrderId, nextCartItemId, nextReviewId := 0, 0, 0;
      events := [];
    }

    /**
     * A customer row for `user`, with the default membership Bronze. Customer.user is
     * one-to-one, so a second customer for the same user is refused.
     */
    method InsertCustomer(user: UserId, phone: string) returns (r: Result<CustomerId>)
      requires Valid()
      modifies this`customers, this`nextCustomerId
      ensures Valid()
      ensures r.Err? <==> HasCustomer(old(customers), user)
      ensures r.Err? ==> r.error == DuplicateUser && customers == old(customers) && nextCustomerId == old(nextCustomerId)
      ensures r.Ok? ==>
        && r.value == old(nextCustomerId) && r.value !in old(customers)
        && customers == old(customers)[r.value := Customer(user, phone, DefaultMembership)]
        && nextCustomerId == old(nextCustomerId) + 1
    {
      if HasCustomer(customers, user) {
        return Err(DuplicateUser);
      }
      var id := nextCustomerId;
      customers := customers[id := Customer(user, phone, DefaultMembership)];
      nextCustomerId := nextCustomerId + 1;
      r := Ok(id);
    }

    /** A new, empty cart under a UUID that no cart has yet (Cart.id defaults to uuid4). */
    method CreateCart(id: Uuid)
      requires Valid()
      requires id !in carts
      modifies this`carts
      ensures Valid()
      ensures carts == old(carts)[id := []]
    {
      carts := carts[id := []];
    }

    /** A new collection row; it features no product yet. */
    method InsertCollection(title: string) returns (id: CollectionId)
      requires Valid()
      modifies this`collections, this`nextCollectionId
      ensures Valid()
      ensures id == old(nextCollectionId) && id !in old(collections)
      ensures collections == old(collections)[id := Collection(title, None)]
      ensures nextCollectionId == old(nextCollectionId) + 1
    {
      id := nextCollectionId;
      collections := collections[id := Collection(title, None)];
      nextCollectionId := nextCollectionId + 1;
    }

    /** A new product row; its validators hold and its collection exists. */
    method InsertProduct(p: Product) returns (id: ProductId)
      requires Valid() && ValidProduct(p) && p.collection in collections
      modifies this`products, this`nextProductId
      ensures Valid()
      ensures id == old(nextProductId) && id !in old(products)
      ensures products == old(products)[id := p]
      ensures nextProductId == old(nextProductId) + 1
    {
      id := nextProductId;
      products := products[id := p];
      nextProductId := nextProductId + 1;
    }

    /** `save()` of an existing product row. */
    method SetProduct(id: ProductId, p: Product)
      requires Valid() && id in products && ValidProduct(p) && p.collection in collections
      modifies this`products
      ensures Valid()
      ensures products == old(products)[id := p]
    {
      products := products[id := p];
    }

    /** A new review row for an existing product. */
    method InsertReview(v: Review) returns (id: ReviewId)
      requires Valid() && v.product in products
      modifies this`reviews, this`nextReviewId
      ensures Valid()
      ensures id == old(nextReviewId) && id !in old(reviews)
      ensures reviews == old(reviews)[id := v]
      ensures nextReviewId == old(nextReviewId) + 1
    {
      id := nextReviewId;
      reviews := reviews[id := v];
      nextReviewId := nextReviewId + 1;
    }

    /** The next cart-line key, consumed by an insert into the CartItem table. */
    method NewCartItemId() returns (id: CartItemId)
      requires Valid()
      modifies this`nextCartItemId
      ensures Valid()
      ensures id == old(nextCartItemId) && nextCartItemId == id + 1
    {
      id := nextCartItemId;
      nextCartItemId := nextCartItemId + 1;
    }

    /** Writing the lines of an existing cart (CartItem.cart is a foreign key). */
    method SetCartLines(c: Uuid, lines: seq<CartItem>)
      requires Valid() && c in carts
      requires ValidLines(lines) && InCatalog(lines, products) && IdsBelow(lines, nextCartItemId)
      modifies this`carts
      ensures Valid()
      ensures carts == old(carts)[c := lines]
    {
      carts := carts[c := lines];
    }

    /** A new order row with its lines, for an existing customer. */
    method InsertOrder(order: Order) returns (id: OrderId)
      requires Valid() && order.customer in customers
      requires forall x :: x in order.items ==> ValidOrderItem(x) && x.product in products
      modifies this`orders, this`nextOrderId
      ensures Valid()
      ensures id == old(nextOrderId) && id !in old(orders)
      ensures orders == old(orders)[id := order]
      ensures nextOrderId == old(nextOrderId) + 1
    {
      id := nextOrderId;
      orders := orders[id := order];
      nextOrderId := nextOrderId + 1;
    }

    /** `save()` of an existing order row. */
    method SetOrder(id: OrderId, order: Order)
      requires Valid() && id in orders && order.customer in customers
      requires forall x :: x in order.items ==> ValidOrderItem(x) && x.product in products
      modifies this`orders
      ensures Valid()
      ensures orders == old(orders)[id := order]
    {
      orders := orders[id := order];
    }

    /** Deleting a cart deletes its lines with it (CartItem.cart is CASCADE). */
    method DeleteCart(id: Uuid) returns (r: Result<Uuid>)
      requires Valid()
      modifies this`carts
      ensures Valid()
      ensures r.Err? <==> id !in old(carts)
      ensures r.Err? ==> r.error == CartNotFound && carts == old(carts)
      ensures r.Ok? ==> r.value == id && carts == old(carts) - {id}
    {
      if id !in carts {
        return Err(CartNotFound);
      }
      carts := carts - {id};
      r := Ok(id);
    }

    /**
     * Deleting a product. Order lines protect it; its cart lines and reviews go
     * with it (CASCADE); collections that featured it feature nothing (SET_NULL).
     */
    method DeleteProduct(id: ProductId) returns (r: Result<ProductId>)
      requires Valid()
      modifies this`products, this`carts, this`reviews, this`collections
      ensures Valid()
      ensures id !in old(products) ==> r == Err(ProductNotFound)
      ensures id in old(products) && OrderedProduct(old(orders), id) ==> r == Err(Protected)
      ensures r.Ok? <==> id in old(products) && !OrderedProduct(old(orders), id)
      ensures r.Err? ==>
        && products == old(products) && carts == old(carts)
        && reviews == old(reviews) && collections == old(collections)
      ensures r.Ok? ==>
        && id in old(products) && !OrderedProduct(old(orders), id) && r.value == id
        && products == old(products) - {id}
        && carts == CascadeCarts(old(carts), id)
        && reviews == CascadeReviews(old(reviews), id)
        && collections == CascadeCollections(old(collections), id)
    {
      if id !in products {
        r := Err(ProductNotFound);
      } else if OrderedProduct(orders, id) {
        r := Err(Protected);
      } else {
        RemoveProduct(id);
        r := Ok(id);
      }
    }

    /** The delete itself, once nothing protects the product. */
    method RemoveProduct(id: ProductId)
      requires Valid() && !OrderedProduct(orders, id)
      modifies this`products, this`carts, this`reviews, this`collections
      ensures Valid()
      ensures products == old(products) - {id}
      ensures carts == CascadeCarts(old(carts), id)
      ensures reviews == CascadeReviews(old(reviews), id)
      ensures collections == CascadeCollections(old(collections), id)
    {
      ghost var collections0, products0, carts0, reviews0 := collections, products, carts, reviews;
      products, carts, reviews, collections :=
        products - {id}, CascadeCarts(carts, id), CascadeReviews(reviews, id), CascadeCollections(collections, id);
      DeleteProductKeepsValid(this, collections0, products0, carts0, reviews0, id);
    }

    /** Deleting a collection; its products protect it. */
    method DeleteCollection(id: CollectionId) returns (r: Result<CollectionId>)
      requires Valid()
      modifies this`collections
      ensures Valid()
      ensures id !in old(collections) ==> r == Err(CollectionNotFound)
      ensures id in old(collections) && CollectionInUse(old(products), id) ==> r == Err(Protected)
      ensures r.Ok? <==> id in old(collections) && !CollectionInUse(old(products), id)
      ensures r.Err? ==> collections == old(collections)
      ensures r.Ok? ==>
        && id in old(collections) && !CollectionInUse(old(products), id)
        && r.value == id && collections == old(collections) - {id}
    {
      if id !in collections {
        return Err(CollectionNotFound);
      }
      if CollectionInUse(products, id) {
        return Err(Protected);
      }
      collections := collections - {id};
      r := Ok(id);
    }
  }
}
