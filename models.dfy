/**
 * The entities of the store app, the domains of their fields, their choice
 * sets and defaults (store/models.py), plus the error outcomes the app's
 * operations can end in.
 */
module Models {

  datatype Option<T> = None | Some(value: T)

  /** Every table has an auto-increment integer key, except Cart, keyed by a UUID. */
  type CollectionId = nat
  type ProductId = nat
  type CustomerId = nat
  type OrderId = nat
  type CartItemId = nat
  type ReviewId = nat
  type UserId = nat

  /** A UUID is a 128-bit number. */
  const UuidBound: nat := 0x1_0000_0000_0000_0000_0000_0000_0000_0000
  type Uuid = x: nat | x < UuidBound

  /**
   * Money is held in cents. `DecimalField(max_digits=6, decimal_places=2)`
   * holds at most 9999.99; a product's price also has `MinValueValidator(1)`.
   */
  const MinUnitPrice: int := 100
  const MaxUnitPrice: int := 999999

  /** Range of `PositiveSmallIntegerField` (quantities). */
  const MaxSmallInt: int := 32767

  /** Range of `IntegerField` (inventory). */
  const MaxInt: int := 2147483647

  predicate ValidUnitPrice(cents: int) { MinUnitPrice <= cents <= MaxUnitPrice }

  /** An order line's frozen price: `MinValueValidator(0)` and the same decimal width. */
  predicate ValidFrozenPrice(cents: int) { 0 <= cents <= MaxUnitPrice }

  /** `IntegerField` with `MinValueValidator(0)`. */
  predicate ValidInventory(n: int) { 0 <= n <= MaxInt }

  /** `PositiveSmallIntegerField` with `MinValueValidator(1)`. */
  predicate ValidQuantity(q: int) { 1 <= q <= MaxSmallInt }

  /** Order.payment_status and its choice set. */
  datatype PaymentStatus = Pending | Completed | Failed
  {
    function Code(): char
    {
      match this
      case Pending => 'P'
      case Completed => 'C'
      case Failed => 'F'
    }
  }

  const DefaultPaymentStatus: PaymentStatus := Pending

  /** The stored one-letter code back to a choice; any other letter is not a choice. */
  function PaymentStatusOf(c: char): (r: Option<PaymentStatus>)
    ensures r.Some? <==> c in "PCF"
    ensures r.Some? ==> r.value.Code() == c
  {
    if c == 'P' then Some(Pending)
    else if c == 'C' then Some(Completed)
    else if c == 'F' then Some(Failed)
    else None
  }

  /** Customer.membership and its choice set. */
  datatype Membership = Bronze | Silver | Gold
  {
    function Code(): char
    {
      match this
      case Bronze => 'B'
      case Silver => 'S'
      case Gold => 'G'
    }
  }

  const DefaultMembership: Membership := Bronze

  function MembershipOf(c: char): (r: Option<Membership>)
    ensures r.Some? <==> c in "BSG"
    ensures r.Some? ==> r.value.Code() == c
  {
    if c == 'B' then Some(Bronze)
    else if c == 'S' then Some(Silver)
    else if c == 'G' then Some(Gold)
    else None
  }

  /** Decoding a stored code gives back the choice that was stored, for both choice sets. */
  lemma ChoiceCodesRoundTrip(s: PaymentStatus, m: Membership)
    ensures PaymentStatusOf(s.Code()) == Some(s)
    ensures MembershipOf(m.Code()) == Some(m)
  {
  }

  datatype Collection = Collection(title: string, featuredProduct: Option<ProductId>)

  datatype Product = Product(
    title: string,
    slug: string,
    description: Option<string>,
    unitPrice: int,
    inventory: int,
    collection: CollectionId)

  predicate ValidProduct(p: Product)
  {
    ValidUnitPrice(p.unitPrice) && ValidInventory(p.inventory)
  }

  datatype Customer = Customer(user: UserId, phone: string, membership: Membership)

  /** An order line with the unit price copied at the time of the order. */
  datatype OrderItem = OrderItem(product: ProductId, quantity: int, unitPrice: int)

  predicate ValidOrderItem(item: OrderItem)
  {
    ValidQuantity(item.quantity) && ValidFrozenPrice(item.unitPrice)
  }

  /** An order owns its lines (OrderItem.order with related_name "items"). */
  datatype Order = Order(customer: CustomerId, paymentStatus: PaymentStatus, items: seq<OrderItem>)

  datatype CartItem = CartItem(id: CartItemId, product: ProductId, quantity: int)

  datatype Review = Review(product: ProductId, name: string, description: string)

  /** How an operation of the app can fail. */
  datatype Error =
    | ProductNotFound
    | CollectionNotFound
    | CartNotFound
    | CartEmpty
    | CartItemNotFound
    | OrderNotFound
    | CustomerNotFound
    | InvalidQuantity
    | InvalidUnitPrice
    | InvalidInventory
    | InvalidPaymentStatus
    /** A value outside the range of its database column. */
    | QuantityOutOfRange
    /** A required field missing from the request. */
    | MissingField
    /** An empty string for a text field that does not allow blank values. */
    | BlankField
    /** NULL written into a NOT NULL column. */
    | NullField
    /** A delete refused by an `on_delete=PROTECT` reference. */
    | Protected
    /** A second customer for a user (Customer.user is one-to-one). */
    | DuplicateUser
    /** A method the permission map has no entry for. */
    | MethodNotAllowed

  datatype Result<T> = Ok(value: T) | Err(error: Error)
}
