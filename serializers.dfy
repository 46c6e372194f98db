/**
 * The serializers of store/serializers.py that validate a request and change
 * the tables: the cart-line upsert, the quantity update, order placement, the
 * payment-status update, and product, collection and review creation.
 * Validation reports the first failing field only.
 */
module Serializers {
  import opened Models
  import opened CartLines
  import opened Database

  /** AddCartItemSerializer.validate_product_id: the id must name a product, and is kept as given. */
  function ValidateProductId(products: map<ProductId, Product>, value: int): (r: Result<ProductId>)
    ensures r.Ok? <==> value >= 0 && value as nat in products
    ensures r.Ok? ==> r.value == value
    ensures r.Err? ==> r.error == ProductNotFound
  {
    if value >= 0 && value as nat in products then Ok(value as nat) else Err(ProductNotFound)
  }

  /** The quantity field, from the model's PositiveSmallIntegerField with MinValueValidator(1). */
  function ValidateQuantity(value: int): (r: Result<int>)
    ensures r.Ok? <==> ValidQuantity(value)
    ensures r.Ok? ==> r.value == value
    ensures r.Err? ==> r.error == InvalidQuantity
  {
    if ValidQuantity(value) then Ok(value) else Err(InvalidQuantity)
  }

  /**
   * AddCartItemSerializer: validate the product id and the quantity, then
   * upsert the line of `cart` for that product. The new line's id is taken
   * from the CartItem key sequence only when a line is inserted.
   */
  method AddCartItem(db: Db, cart: Uuid, productId: int, quantity: int) returns (r: Result<CartItemId>)
    requires db.Valid()
    modifies db`carts, db`nextCartItemId
    ensures db.Valid()
    ensures ValidateProductId(db.products, productId).Err? ==> r == Err(ProductNotFound)
    ensures ValidateProductId(db.products, productId).Ok? && !ValidQuantity(quantity) ==> r == Err(InvalidQuantity)
    ensures ValidateProductId(db.products, productId).Ok? && ValidQuantity(quantity) && cart !in old(db.carts) ==>
              r == Err(CartNotFound)
    ensures r == Err(QuantityOutOfRange) <==>
              && productId >= 0 && productId as nat in db.products && ValidQuantity(quantity)
              && cart in old(db.carts) && !RaiseFits(old(db.carts)[cart], productId, quantity)
    ensures r.Ok? <==>
              && productId >= 0 && productId as nat in db.products && ValidQuantity(quantity)
              && cart in old(db.carts) && RaiseFits(old(db.carts)[cart], productId, quantity)
    ensures r.Err? ==> db.carts == old(db.carts) && db.nextCartItemId == old(db.nextCartItemId)
    ensures r.Ok? ==>
      && productId >= 0 && productId as nat in db.products && ValidQuantity(quantity) && cart in old(db.carts)
      && db.carts == old(db.carts)[cart := AddToLines(old(db.carts)[cart], productId, quantity, old(db.nextCartItemId))]
      && db.nextCartItemId == old(db.nextCartItemId) + (if HasProduct(old(db.carts)[cart], productId) then 0 else 1)
      && FindLine(db.carts[cart], productId).Some?
      && db.carts[cart][FindLine(db.carts[cart], productId).value].id == r.value
  {
    var checked := ValidateProductId(db.products, productId);
    if checked.Err? {
      return Err(checked.error);
    }
    var p := checked.value;
    var q := ValidateQuantity(quantity);
    if q.Err? {
      return Err(q.error);
    }
    if cart !in db.carts {
      return Err(CartNotFound);
    }
    var lines := db.carts[cart];
    var next0 := db.nextCartItemId;
    match FindLine(lines, p)
    case Some(i) =>
      if lines[i].quantity + quantity > MaxSmallInt {
        return Err(QuantityOutOfRange);
      }
      var added := AddToLines(lines, p, quantity, next0);
      AddKeepsLines(lines, p, quantity, next0, db.products, db.nextCartItemId);
      AddToExisting(lines, p, quantity, next0, i);
      db.SetCartLines(cart, added);
      FindUnique(added, p, i);
      r := Ok(lines[i].id);
    case None =>
      var id := db.NewCartItemId();
      var added := AddToLines(lines, p, quantity, id);
      AddKeepsLines(lines, p, quantity, id, db.products, db.nextCartItemId);
      db.SetCartLines(cart, added);
      FindUnique(added, p, |lines|);
      r := Ok(id);
  }

  /**
   * PATCH of a cart line (UpdateCartItemSerializer, partial): the line is
   * looked up by id among the lines of `cart`, then its quantity is replaced
   * when the request carries one; a request without it changes nothing.
   */
  method UpdateCartItem(db: Db, cart: Uuid, item: CartItemId, quantity: Option<int>) returns (r: Result<CartItemId>)
    requires db.Valid()
    modifies db`carts
    ensures db.Valid()
    ensures FindItem(CartItemsOf(old(db.carts), cart), item).None? ==> r == Err(CartItemNotFound)
    ensures FindItem(CartItemsOf(old(db.carts), cart), item).Some? && quantity.Some? && !ValidQuantity(quantity.value) ==>
              r == Err(InvalidQuantity)
    ensures r.Ok? <==>
              FindItem(CartItemsOf(old(db.carts), cart), item).Some? && (quantity.Some? ==> ValidQuantity(quantity.value))
    ensures r.Err? || quantity.None? ==> db.carts == old(db.carts)
    ensures r.Ok? && quantity.Some? ==>
      && r.value == item && cart in old(db.carts)
      && FindItem(old(db.carts)[cart], item).Some?
      && db.carts == old(db.carts)[cart := SetQuantity(old(db.carts)[cart], FindItem(old(db.carts)[cart], item).value,
                                                         quantity.value)]
  {
    var lines := CartItemsOf(db.carts, cart);
    var found := FindItem(lines, item);
    if found.None? {
      return Err(CartItemNotFound);
    }
    if quantity.None? {
      return Ok(item);
    }
    var q := ValidateQuantity(quantity.value);
    if q.Err? {
      return Err(q.error);
    }
    SetQuantityKeepsLines(lines, found.value, quantity.value, db.products, db.nextCartItemId);
    db.SetCartLines(cart, SetQuantity(lines, found.value, quantity.value));
    r := Ok(item);
  }

  /** DELETE of a cart line: looked up by id among the lines of `cart`, then removed. */
  method RemoveCartItem(db: Db, cart: Uuid, item: CartItemId) returns (r: Result<CartItemId>)
    requires db.Valid()
    modifies db`carts
    ensures db.Valid()
    ensures r.Err? <==> FindItem(CartItemsOf(old(db.carts), cart), item).None?
    ensures r.Err? ==> r.error == CartItemNotFound && db.carts == old(db.carts)
    ensures r.Ok? ==>
      && r.value == item && cart in old(db.carts)
      && db.carts.Keys == old(db.carts).Keys
      && (forall c :: c in db.carts && c != cart ==> db.carts[c] == old(db.carts)[c])
      && (forall x :: x in db.carts[cart] <==> x in old(db.carts)[cart] && x.id != item)
  {
    var lines := CartItemsOf(db.carts, cart);
    var found := FindItem(lines, item);
    if found.None? {
      return Err(CartItemNotFound);
    }
    RemoveAtKeepsLines(lines, found.value, db.products, db.nextCartItemId);
    db.SetCartLines(cart, RemoveAt(lines, found.value));
    r := Ok(item);
  }

  /**
   * CreateOrderSerializer.save, one atomic step: a new Pending order for
   * `customer` whose lines copy the lines of `cart` at the current prices,
   * then the cart is deleted and order_created is announced. The customer
   * must exist; the cart is not checked, so a missing or empty cart gives an
   * order with no lines.
   */
  method CreateOrder(db: Db, cart: Uuid, customer: CustomerId) returns (r: Result<OrderId>)
    requires db.Valid()
    modifies db`orders, db`nextOrderId, db`carts, db`events
    ensures db.Valid()
    ensures r.Err? <==> customer !in db.customers
    ensures r.Err? ==>
      && r.error == CustomerNotFound
      && db.orders == old(db.orders) && db.nextOrderId == old(db.nextOrderId)
      && db.carts == old(db.carts) && db.events == old(db.events)
    ensures r.Ok? ==>
      && r.value == old(db.nextOrderId) && r.value !in old(db.orders)
      && db.orders == old(db.orders)[r.value := Order(customer, DefaultPaymentStatus,
                                                       FreezeLines(CartItemsOf(old(db.carts), cart), db.products))]
      && db.nextOrderId == old(db.nextOrderId) + 1
      && db.carts == old(db.carts) - {cart}
      && db.events == old(db.events) + [r.value]
    ensures r.Ok? && cart !in old(db.carts) ==> db.orders[r.value].items == []
  {
    if customer !in db.customers {
      return Err(CustomerNotFound);
    }
    var lines := CartItemsOf(db.carts, cart);
    FreezeValid(lines, db.products);
    var id := db.InsertOrder(Order(customer, DefaultPaymentStatus, FreezeLines(lines, db.products)));
    if cart in db.carts {
      var _ := db.DeleteCart(cart);
    }
    db.events := db.events + [id];
    r := Ok(id);
  }

  /** What the cart was worth is what the order placed from it is worth. */
  lemma OrderKeepsCartTotal(lines: seq<CartItem>, products: map<ProductId, Product>)
    requires InCatalog(lines, products) && QuantitiesValid(lines)
    requires forall p :: p in products ==> ValidProduct(products[p])
    ensures |FreezeLines(lines, products)| == |lines|
    ensures OrderTotal(FreezeLines(lines, products)) == CartTotal(lines, products)
    ensures OrderTotal(FreezeLines(lines, products)) >= MinUnitPrice * |lines|
  {
    FrozenTotal(lines, products);
    CartTotalAtLeast(lines, products);
  }

  /**
   * PATCH of an order (UpdateOrderSerializer): only payment_status is
   * writable; a request without it changes nothing, one with a letter
   * outside the choices is refused.
   */
  method UpdatePaymentStatus(db: Db, id: OrderId, code: Option<char>) returns (r: Result<OrderId>)
    requires db.Valid()
    modifies db`orders
    ensures db.Valid()
    ensures id !in old(db.orders) ==> r == Err(OrderNotFound)
    ensures id in old(db.orders) && code.Some? && code.value !in "PCF" ==> r == Err(InvalidPaymentStatus)
    ensures r.Ok? <==> id in old(db.orders) && (code.Some? ==> code.value in "PCF")
    ensures r.Err? ==> db.orders == old(db.orders)
    ensures r.Ok? ==>
      && r.value == id && id in old(db.orders)
      && db.orders.Keys == old(db.orders).Keys
      && (forall o :: o in db.orders && o != id ==> db.orders[o] == old(db.orders)[o])
      && db.orders[id].customer == old(db.orders)[id].customer
      && db.orders[id].items == old(db.orders)[id].items
      && db.orders[id].paymentStatus.Code() == if code.Some? then code.value else old(db.orders)[id].paymentStatus.Code()
  {
    if id !in db.orders {
      return Err(OrderNotFound);
    }
    if code.None? {
      return Ok(id);
    }
    var status := PaymentStatusOf(code.value);
    if status.None? {
      return Err(InvalidPaymentStatus);
    }
    var order := db.orders[id];
    db.SetOrder(id, order.(paymentStatus := status.value));
    r := Ok(id);
  }

  /** A text field that is carried and not blank. */
  predicate Filled(value: Option<string>)
  {
    value.Some? && value.value != ""
  }

  /**
   * The fields of a product request, as validated data: a field the request
   * does not carry is None. `description` may be carried as null.
   */
  datatype ProductFields = ProductFields(
    title: Option<string>,
    slug: Option<string>,
    description: Option<Option<string>>,
    unitPrice: Option<int>,
    inventory: Option<int>,
    collection: Option<int>)

  /** Every field a product needs is carried (description may be left out). */
  predicate Complete(d: ProductFields)
  {
    d.title.Some? && d.slug.Some? && d.unitPrice.Some? && d.inventory.Some? && d.collection.Some?
  }

  /** Every carried field is within its validators; a carried collection exists. */
  predicate FieldsValid(collections: map<CollectionId, Collection>, d: ProductFields)
  {
    && (d.title.Some? ==> d.title.value != "")
    && (d.slug.Some? ==> d.slug.value != "")
    && (d.inventory.Some? ==> ValidInventory(d.inventory.value))
    && (d.unitPrice.Some? ==> ValidUnitPrice(d.unitPrice.value))
    && (d.collection.Some? ==> d.collection.value >= 0 && d.collection.value as nat in collections)
  }

  /** The writable fields of ProductSerializer that carry a validator, in its declared order. */
  datatype Field = TitleField | SlugField | InventoryField | UnitPriceField | CollectionField

  const ProductFieldOrder: seq<Field> := [TitleField, SlugField, InventoryField, UnitPriceField, CollectionField]

  /** A required field is missing; a partial request requires nothing. */
  function RequiredError(partial: bool): Option<Error>
  {
    if partial then None else Some(MissingField)
  }

  /**
   * A text field of a model field without `blank=True`: the serializer field
   * refuses the empty string, and a missing value unless partial.
   */
  function TextError(value: Option<string>, partial: bool): Option<Error>
  {
    if value.None? then RequiredError(partial) else if value.value == "" then Some(BlankField) else None
  }

  /** The error the validation of one field of a product request raises, if any. */
  function FieldError(collections: map<CollectionId, Collection>, d: ProductFields, partial: bool, f: Field)
    : Option<Error>
  {
    match f
    case TitleField => TextError(d.title, partial)
    case SlugField => TextError(d.slug, partial)
    case InventoryField =>
      if d.inventory.None? then RequiredError(partial)
      else if ValidInventory(d.inventory.value) then None else Some(InvalidInventory)
    case UnitPriceField =>
      if d.unitPrice.None? then RequiredError(partial)
      else if ValidUnitPrice(d.unitPrice.value) then None else Some(InvalidUnitPrice)
    case CollectionField =>
      if d.collection.None? then RequiredError(partial)
      else if d.collection.value >= 0 && d.collection.value as nat in collections then None
      else Some(CollectionNotFound)
  }

  /** The error of the first of `fields` whose validation fails. */
  function FirstError(collections: map<CollectionId, Collection>, d: ProductFields, partial: bool, fields: seq<Field>)
    : Option<Error>
  {
    if fields == [] then None
    else if FieldError(collections, d, partial, fields[0]).Some? then FieldError(collections, d, partial, fields[0])
    else FirstError(collections, d, partial, fields[1..])
  }

  /** FirstError is the error of a failing field before which every field passes. */
  lemma {:induction false} FirstErrorIsFirst(collections: map<CollectionId, Collection>, d: ProductFields,
                                             partial: bool, fields: seq<Field>)
    ensures FirstError(collections, d, partial, fields).None? <==>
              forall i :: 0 <= i < |fields| ==> FieldError(collections, d, partial, fields[i]).None?
    ensures FirstError(collections, d, partial, fields).Some? ==>
              exists i :: 0 <= i < |fields| && FieldError(collections, d, partial, fields[i]) == FirstError(collections, d, partial, fields)
                && forall j :: 0 <= j < i ==> FieldError(collections, d, partial, fields[j]).None?
  {
    if fields != [] && FieldError(collections, d, partial, fields[0]).None? {
      FirstErrorIsFirst(collections, d, partial, fields[1..]);
      assert forall i :: 0 <= i < |fields[1..]| ==> fields[1..][i] == fields[i + 1];
      if FirstError(collections, d, partial, fields).Some? {
        var k :| 0 <= k < |fields[1..]| && FieldError(collections, d, partial, fields[1..][k]) == FirstError(collections, d, partial, fields)
                 && forall j :: 0 <= j < k ==> FieldError(collections, d, partial, fields[1..][j]).None?;
        assert FieldError(collections, d, partial, fields[k + 1]) == FirstError(collections, d, partial, fields);
      } else {
        forall i | 0 <= i < |fields| ensures FieldError(collections, d, partial, fields[i]).None? {
          if i > 0 { assert fields[i] == fields[1..][i - 1]; }
        }
      }
    }
  }

  /** No field fails exactly when the carried fields are valid and, unless partial, complete. */
  lemma NoFieldErrorIffValid(collections: map<CollectionId, Collection>, d: ProductFields, partial: bool)
    ensures (forall i :: 0 <= i < |ProductFieldOrder| ==> FieldError(collections, d, partial, ProductFieldOrder[i]).None?)
            <==> FieldsValid(collections, d) && (partial || Complete(d))
  {
    var o := ProductFieldOrder;
    assert o[0] == TitleField && o[1] == SlugField && o[2] == InventoryField;
    assert o[3] == UnitPriceField && o[4] == CollectionField;
  }

  /**
   * ProductSerializer validation, field by field in the serializer's order
   * (title, slug, inventory, unit_price, collection); the error reported is
   * that of the first field that fails. Unless the request is partial, a
   * missing field is an error; description may be empty or null.
   */
  function ValidateProductFields(collections: map<CollectionId, Collection>, d: ProductFields, partial: bool)
    : (r: Result<ProductFields>)
    ensures r.Ok? <==> FieldsValid(collections, d) && (partial || Complete(d))
    ensures r.Ok? ==> r.value == d
    ensures r.Err? ==>
              exists i :: 0 <= i < |ProductFieldOrder|
                && FieldError(collections, d, partial, ProductFieldOrder[i]) == Some(r.error)
                && forall j :: 0 <= j < i ==> FieldError(collections, d, partial, ProductFieldOrder[j]).None?
  {
    FirstErrorIsFirst(collections, d, partial, ProductFieldOrder);
    NoFieldErrorIffValid(collections, d, partial);
    match FirstError(collections, d, partial, ProductFieldOrder)
    case Some(e) => Err(e)
    case None => Ok(d)
  }

  /** ProductSerializer.create: a product from complete fields; no description is null. */
  function NewProduct(d: ProductFields): (p: Product)
    requires Complete(d) && d.collection.value >= 0
    ensures p.title == d.title.value && p.slug == d.slug.value
    ensures p.unitPrice == d.unitPrice.value && p.inventory == d.inventory.value
    ensures p.collection == d.collection.value
    ensures p.description == if d.description.Some? then d.description.value else None
  {
    Product(d.title.value, d.slug.value, if d.description.Some? then d.description.value else None,
            d.unitPrice.value, d.inventory.value, d.collection.value as nat)
  }

  /**
   * ProductSerializer.update as written: unit_price, title and inventory are
   * set from `validated_data.get`, which is None for a field the request does
   * not carry, and saving None into those NOT NULL columns fails. The other
   * fields of the request are not written.
   */
  function UpdateAsWritten(p: Product, d: ProductFields): (r: Result<Product>)
    ensures r.Err? <==> d.unitPrice.None? || d.title.None? || d.inventory.None?
    ensures r.Err? ==> r.error == NullField
    ensures r.Ok? ==> r.value.slug == p.slug && r.value.description == p.description && r.value.collection == p.collection
  {
    if d.unitPrice.None? || d.title.None? || d.inventory.None? then Err(NullField)
    else Ok(p.(unitPrice := d.unitPrice.value, title := d.title.value, inventory := d.inventory.value))
  }

  /** A PATCH that carries only a title. */
  function TitleOnly(title: string): ProductFields
  {
    ProductFields(Some(title), None, None, None, None, None)
  }

  /** A PATCH that renames a product fails as written, where it should rename it. */
  lemma UpdateAsWrittenRejectsRename(p: Product, title: string)
    ensures UpdateAsWritten(p, TitleOnly(title)) == Err(NullField)
    ensures ApplyUpdate(p, TitleOnly(title)) == p.(title := title)
  {
  }

  /** A PUT that moves a product to another collection reports success and leaves it where it was. */
  lemma UpdateAsWrittenKeepsCollection(p: Product, d: ProductFields)
    requires Complete(d) && d.collection.value >= 0 && d.collection.value != p.collection
    ensures UpdateAsWritten(p, d).Ok? && UpdateAsWritten(p, d).value.collection == p.collection
    ensures ApplyUpdate(p, d).collection == d.collection.value
  {
  }

  /** The update a ModelSerializer performs: each carried field is written, the others are kept. */
  function ApplyUpdate(p: Product, d: ProductFields): (q: Product)
    requires d.collection.Some? ==> d.collection.value >= 0
    ensures (ValidProduct(p) && (d.unitPrice.Some? ==> ValidUnitPrice(d.unitPrice.value))
             && (d.inventory.Some? ==> ValidInventory(d.inventory.value))) ==> ValidProduct(q)
  {
    Product(
      if d.title.Some? then d.title.value else p.title,
      if d.slug.Some? then d.slug.value else p.slug,
      if d.description.Some? then d.description.value else p.description,
      if d.unitPrice.Some? then d.unitPrice.value else p.unitPrice,
      if d.inventory.Some? then d.inventory.value else p.inventory,
      if d.collection.Some? then d.collection.value as nat else p.collection)
  }

  /**
   * The corrected update changes nothing the request leaves out, writes what
   * it carries, agrees with the source wherever the source succeeds and writes
   * every field it could, and keeps a product valid.
   */
  lemma ApplyUpdateProperties(collections: map<CollectionId, Collection>, p: Product, d: ProductFields)
    requires FieldsValid(collections, d) && ValidProduct(p) && p.collection in collections
    ensures ApplyUpdate(p, ProductFields(None, None, None, None, None, None)) == p
    ensures ApplyUpdate(ApplyUpdate(p, d), d) == ApplyUpdate(p, d)
    ensures ValidProduct(ApplyUpdate(p, d)) && ApplyUpdate(p, d).collection in collections
    ensures UpdateAsWritten(p, d).Ok? && d.slug.None? && d.description.None? && d.collection.None? ==>
              UpdateAsWritten(p, d).value == ApplyUpdate(p, d)
    ensures Complete(d) ==> ApplyUpdate(p, d) == NewProduct(d).(description := ApplyUpdate(p, d).description)
  {
  }

  /** POST of a product: validated complete fields become a new product row. */
  method CreateProduct(db: Db, d: ProductFields) returns (r: Result<ProductId>)
    requires db.Valid()
    modifies db`products, db`nextProductId
    ensures db.Valid()
    ensures r.Err? <==> ValidateProductFields(db.collections, d, false).Err?
    ensures r.Err? ==>
      && r.error == ValidateProductFields(db.collections, d, false).error
      && db.products == old(db.products) && db.nextProductId == old(db.nextProductId)
    ensures r.Ok? ==>
      && Complete(d) && d.collection.value >= 0
      && r.value == old(db.nextProductId) && r.value !in old(db.products)
      && db.products == old(db.products)[r.value := NewProduct(d)]
      && db.nextProductId == old(db.nextProductId) + 1
  {
    var checked := ValidateProductFields(db.collections, d, false);
    if checked.Err? {
      return Err(checked.error);
    }
    var id := db.InsertProduct(NewProduct(d));
    r := Ok(id);
  }

  /**
   * PUT (`partial` false) or PATCH (`partial` true) of a product, with the
   * corrected update. Orders keep the prices they were placed at.
   */
  method UpdateProduct(db: Db, id: ProductId, d: ProductFields, partial: bool) returns (r: Result<ProductId>)
    requires db.Valid()
    modifies db`products
    ensures db.Valid()
    ensures id !in old(db.products) ==> r == Err(ProductNotFound)
    ensures id in old(db.products) && ValidateProductFields(db.collections, d, partial).Err? ==>
              r == Err(ValidateProductFields(db.collections, d, partial).error)
    ensures r.Ok? <==> id in old(db.products) && ValidateProductFields(db.collections, d, partial).Ok?
    ensures r.Err? ==> db.products == old(db.products)
    ensures r.Ok? ==>
      && r.value == id && id in old(db.products)
      && (d.collection.Some? ==> d.collection.value >= 0)
      && db.products == old(db.products)[id := ApplyUpdate(old(db.products)[id], d)]
    ensures db.orders == old(db.orders)
  {
    if id !in db.products {
      return Err(ProductNotFound);
    }
    var checked := ValidateProductFields(db.collections, d, partial);
    if checked.Err? {
      return Err(checked.error);
    }
    ApplyUpdateProperties(db.collections, db.products[id], d);
    db.SetProduct(id, ApplyUpdate(db.products[id], d));
    r := Ok(id);
  }

  /**
   * PUT or PATCH of a product with `ProductSerializer.update` as written:
   * after validation the three `.get` assignments are saved, so a request
   * that omits unit_price, title or inventory fails on the NULL write and
   * leaves the table as it was.
   */
  method UpdateProductAsWritten(db: Db, id: ProductId, d: ProductFields, partial: bool) returns (r: Result<ProductId>)
    requires db.Valid()
    modifies db`products
    ensures db.Valid()
    ensures id !in old(db.products) ==> r == Err(ProductNotFound)
    ensures id in old(db.products) && ValidateProductFields(db.collections, d, partial).Err? ==>
              r == Err(ValidateProductFields(db.collections, d, partial).error)
    ensures (id in old(db.products) && ValidateProductFields(db.collections, d, partial).Ok?
             && UpdateAsWritten(old(db.products)[id], d).Err?) ==> r == Err(NullField)
    ensures r.Ok? <==> id in old(db.products) && ValidateProductFields(db.collections, d, partial).Ok?
                       && UpdateAsWritten(old(db.products)[id], d).Ok?
    ensures r.Err? ==> db.products == old(db.products)
    ensures r.Ok? ==>
      && r.value == id
      && db.products == old(db.products)[id := UpdateAsWritten(old(db.products)[id], d).value]
  {
    if id !in db.products {
      return Err(ProductNotFound);
    }
    var checked := ValidateProductFields(db.collections, d, partial);
    if checked.Err? {
      return Err(checked.error);
    }
    var written := UpdateAsWritten(db.products[id], d);
    if written.Err? {
      return Err(written.error);
    }
    db.SetProduct(id, written.value);
    r := Ok(id);
  }

  /** CollectionSerializer.create: a title is required and may not be blank; the collection features nothing. */
  method CreateCollection(db: Db, title: Option<string>) returns (r: Result<CollectionId>)
    requires db.Valid()
    modifies db`collections, db`nextCollectionId
    ensures db.Valid()
    ensures r.Err? <==> title.None? || title.value == ""
    ensures title.None? ==> r == Err(MissingField)
    ensures title == Some("") ==> r == Err(BlankField)
    ensures r.Err? ==> db.collections == old(db.collections) && db.nextCollectionId == old(db.nextCollectionId)
    ensures r.Ok? ==>
      && r.value == old(db.nextCollectionId) && r.value !in old(db.collections)
      && db.collections == old(db.collections)[r.value := Collection(title.value, None)]
      && db.nextCollectionId == old(db.nextCollectionId) + 1
  {
    var checked := TextError(title, false);
    if checked.Some? {
      return Err(checked.value);
    }
    var id := db.InsertCollection(title.value);
    r := Ok(id);
  }

  /**
   * ReviewSerializer.create: name and description are required and may not
   * be blank, checked in that order; the product comes from the URL, and a
   * product that does not exist violates the key.
   */
  method CreateReview(db: Db, product: ProductId, name: Option<string>, description: Option<string>)
    returns (r: Result<ReviewId>)
    requires db.Valid()
    modifies db`reviews, db`nextReviewId
    ensures db.Valid()
    ensures name.None? ==> r == Err(MissingField)
    ensures name == Some("") ==> r == Err(BlankField)
    ensures Filled(name) && description.None? ==> r == Err(MissingField)
    ensures Filled(name) && description == Some("") ==> r == Err(BlankField)
    ensures Filled(name) && Filled(description) && product !in db.products ==> r == Err(ProductNotFound)
    ensures r.Ok? <==> Filled(name) && Filled(description) && product in db.products
    ensures r.Err? ==> db.reviews == old(db.reviews) && db.nextReviewId == old(db.nextReviewId)
    ensures r.Ok? ==>
      && r.value == old(db.nextReviewId) && r.value !in old(db.reviews)
      && db.reviews == old(db.reviews)[r.value := Review(product, name.value, description.value)]
      && db.nextReviewId == old(db.nextReviewId) + 1
  {
    var checked := TextError(name, false);
    if checked.None? {
      checked := TextError(description, false);
    }
    if checked.Some? {
      return Err(checked.value);
    }
    if product !in db.products {
      return Err(ProductNotFound);
    }
    var id := db.InsertReview(Review(product, name.value, description.value));
    r := Ok(id);
  }
}
