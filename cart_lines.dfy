/**
 * The lines of one cart and what is computed from them: the upsert that
 * AddCartItemSerializer.save performs, the cascade that removes a deleted
 * product's lines, the totals the cart serializers report, and the price
 * snapshot CreateOrderSerializer.save takes.
 */
module CartLines {
  import opened Models

  function ProductKey(x: CartItem): nat { x.product }
  function IdKey(x: CartItem): nat { x.id }

  /** No two lines agree on `key`. */
  predicate Distinct(lines: seq<CartItem>, key: CartItem -> nat)
  {
    forall i, j :: 0 <= i < j < |lines| ==> key(lines[i]) != key(lines[j])
  }

  /** unique_together (cart, product): no product appears on two lines. */
  predicate UniqueProducts(lines: seq<CartItem>)
  {
    Distinct(lines, ProductKey)
  }

  /** CartItem.id is the primary key: no id appears on two lines. */
  predicate UniqueIds(lines: seq<CartItem>)
  {
    Distinct(lines, IdKey)
  }

  predicate QuantitiesValid(lines: seq<CartItem>)
  {
    forall x :: x in lines ==> ValidQuantity(x.quantity)
  }

  predicate ValidLines(lines: seq<CartItem>)
  {
    UniqueProducts(lines) && UniqueIds(lines) && QuantitiesValid(lines)
  }

  /** Every line refers to a product of the catalog. */
  predicate InCatalog(lines: seq<CartItem>, products: map<ProductId, Product>)
  {
    forall x :: x in lines ==> x.product in products
  }

  predicate IdsBelow(lines: seq<CartItem>, bound: nat)
  {
    forall x :: x in lines ==> x.id < bound
  }

  predicate HasProduct(lines: seq<CartItem>, p: ProductId)
  {
    exists x :: x in lines && x.product == p
  }

  /** The line for `p`, the lookup `CartItem.objects.get(cart_id=…, product_id=…)`. */
  function FindLine(lines: seq<CartItem>, p: ProductId): (r: Option<nat>)
    ensures r.Some? ==> r.value < |lines| && lines[r.value].product == p
    ensures r.None? <==> !HasProduct(lines, p)
  {
    if lines == [] then None
    else if lines[0].product == p then Some(0)
    else
      match FindLine(lines[1..], p)
      case None =>
        assert forall x :: x in lines ==> x == lines[0] || x in lines[1..];
        None
      case Some(i) => Some(i + 1)
  }

  /**
   * The upsert: the line for `p` gets `q` more, or a new line `freshId`
   * for `p` with quantity `q` is appended.
   */
  function AddToLines(lines: seq<CartItem>, p: ProductId, q: int, freshId: CartItemId): (r: seq<CartItem>)
    ensures HasProduct(r, p)
    ensures |r| == if HasProduct(lines, p) then |lines| else |lines| + 1
  {
    match FindLine(lines, p)
    case Some(i) =>
      var r := lines[i := lines[i].(quantity := lines[i].quantity + q)];
      assert r[i] in r;
      r
    case None =>
      var r := lines + [CartItem(freshId, p, q)];
      assert r[|lines|] in r;
      r
  }

  /**
   * Whether adding `q` of `p` keeps the quantity column in range: a raised
   * line must stay at or below 32767.
   */
  predicate RaiseFits(lines: seq<CartItem>, p: ProductId, q: int)
  {
    FindLine(lines, p).Some? ==> lines[FindLine(lines, p).value].quantity + q <= MaxSmallInt
  }

  /** With one line per product, the lookup finds exactly the line that has it. */
  lemma FindUnique(lines: seq<CartItem>, p: ProductId, i: nat)
    requires UniqueProducts(lines)
    requires i < |lines| && lines[i].product == p
    ensures FindLine(lines, p) == Some(i)
  {
    assert HasProduct(lines, p) by { assert lines[i] in lines; }
  }

  /** Adding a product already in the cart raises that line by `q` and touches no other line. */
  lemma AddToExisting(lines: seq<CartItem>, p: ProductId, q: int, freshId: CartItemId, i: nat)
    requires UniqueProducts(lines)
    requires i < |lines| && lines[i].product == p
    ensures |AddToLines(lines, p, q, freshId)| == |lines|
    ensures AddToLines(lines, p, q, freshId)[i] == lines[i].(quantity := lines[i].quantity + q)
    ensures forall j :: 0 <= j < |lines| && j != i ==> AddToLines(lines, p, q, freshId)[j] == lines[j]
  {
    FindUnique(lines, p, i);
  }

  /** Adding a product not in the cart appends exactly one line, for that product and quantity. */
  lemma AddToAbsent(lines: seq<CartItem>, p: ProductId, q: int, freshId: CartItemId)
    requires !HasProduct(lines, p)
    ensures AddToLines(lines, p, q, freshId) == lines + [CartItem(freshId, p, q)]
  {
  }

  /** The upsert keeps one line per product. */
  lemma AddKeepsUnique(lines: seq<CartItem>, p: ProductId, q: int, freshId: CartItemId)
    requires UniqueProducts(lines)
    ensures UniqueProducts(AddToLines(lines, p, q, freshId))
  {
    var r := AddToLines(lines, p, q, freshId);
    match FindLine(lines, p)
    case Some(i) =>
      assert forall j :: 0 <= j < |r| ==> r[j].product == lines[j].product;
    case None =>
      forall i, j | 0 <= i < j < |r| ensures r[i].product != r[j].product {
        if j == |lines| {
          assert lines[i] in lines;
        }
      }
  }

  /**
   * The upsert keeps the lines valid, in the catalog and below the id bound,
   * provided a raised line stays within the column's range and a fresh id is
   * above every id the cart holds.
   */
  lemma AddKeepsLines(lines: seq<CartItem>, p: ProductId, q: int, freshId: CartItemId,
                      products: map<ProductId, Product>, bound: nat)
    requires ValidLines(lines) && InCatalog(lines, products) && IdsBelow(lines, bound)
    requires p in products && ValidQuantity(q)
    requires FindLine(lines, p).Some? ==> ValidQuantity(lines[FindLine(lines, p).value].quantity + q)
    requires FindLine(lines, p).None? ==> IdsBelow(lines, freshId) && freshId < bound
    ensures ValidLines(AddToLines(lines, p, q, freshId))
    ensures InCatalog(AddToLines(lines, p, q, freshId), products)
    ensures IdsBelow(AddToLines(lines, p, q, freshId), bound)
  {
    AddKeepsUnique(lines, p, q, freshId);
    var r := AddToLines(lines, p, q, freshId);
    match FindLine(lines, p)
    case Some(i) =>
      assert forall j :: 0 <= j < |r| ==> r[j].id == lines[j].id;
      forall x | x in r
        ensures ValidQuantity(x.quantity) && x.product in products && x.id < bound
      {
        var j :| 0 <= j < |r| && r[j] == x;
        assert lines[j] in lines;
      }
    case None =>
      forall i, j | 0 <= i < j < |r| ensures r[i].id != r[j].id {
        if j == |lines| {
          assert lines[i] in lines;
        }
      }
  }

  /** Line total: quantity times the product's current unit price (CartItemSerializer). */
  function LineTotal(line: CartItem, products: map<ProductId, Product>): (r: int)
    requires line.product in products
    ensures ValidQuantity(line.quantity) && ValidUnitPrice(products[line.product].unitPrice) ==>
              MinUnitPrice <= products[line.product].unitPrice <= r <= MaxSmallInt * MaxUnitPrice
  {
    ProductBounds(line.quantity, products[line.product].unitPrice, MaxSmallInt, MaxUnitPrice);
    line.quantity * products[line.product].unitPrice
  }

  lemma ProductBounds(a: int, b: int, maxA: int, maxB: int)
    ensures 1 <= a <= maxA && 0 <= b <= maxB ==> b <= a * b <= maxA * maxB
  {
    if 1 <= a <= maxA && 0 <= b <= maxB {
      assert (a - 1) * b >= 0;
      assert (maxA - a) * b >= 0;
      assert maxA * (maxB - b) >= 0;
    }
  }

  /** Cart total: the sum of the line totals, 0 for no lines (CartSerializer). */
  function CartTotal(lines: seq<CartItem>, products: map<ProductId, Product>): int
    requires InCatalog(lines, products)
  {
    if lines == [] then 0
    else
      assert lines[0] in lines;
      LineTotal(lines[0], products) + CartTotal(lines[1..], products)
  }

  lemma {:induction false} CartTotalAppend(lines: seq<CartItem>, x: CartItem, products: map<ProductId, Product>)
    requires InCatalog(lines, products) && x.product in products
    ensures InCatalog(lines + [x], products)
    ensures CartTotal(lines + [x], products) == CartTotal(lines, products) + LineTotal(x, products)
  {
    if lines != [] {
      assert (lines + [x])[1..] == lines[1..] + [x];
      CartTotalAppend(lines[1..], x, products);
    }
  }

  lemma {:induction false} CartTotalUpdate(lines: seq<CartItem>, i: nat, x: CartItem, products: map<ProductId, Product>)
    requires InCatalog(lines, products) && x.product in products && i < |lines|
    ensures InCatalog(lines[i := x], products)
    ensures CartTotal(lines[i := x], products)
         == CartTotal(lines, products) - LineTotal(lines[i], products) + LineTotal(x, products)
  {
    if i > 0 {
      assert lines[i := x][1..] == lines[1..][i - 1 := x];
      CartTotalUpdate(lines[1..], i - 1, x, products);
    }
  }

  /** After adding `q` of `p` the cart is worth exactly `q` times `p`'s current price more. */
  lemma AddRaisesTotal(lines: seq<CartItem>, p: ProductId, q: int, freshId: CartItemId,
                       products: map<ProductId, Product>)
    requires InCatalog(lines, products) && p in products
    ensures InCatalog(AddToLines(lines, p, q, freshId), products)
    ensures CartTotal(AddToLines(lines, p, q, freshId), products)
         == CartTotal(lines, products) + q * products[p].unitPrice
  {
    match FindLine(lines, p)
    case Some(i) =>
      CartTotalUpdate(lines, i, lines[i].(quantity := lines[i].quantity + q), products);
    case None =>
      CartTotalAppend(lines, CartItem(freshId, p, q), products);
  }

  /** A cart with lines of positive quantity at valid prices is worth at least 1.00 per line. */
  lemma {:induction false} CartTotalAtLeast(lines: seq<CartItem>, products: map<ProductId, Product>)
    requires InCatalog(lines, products) && QuantitiesValid(lines)
    requires forall p :: p in products ==> ValidProduct(products[p])
    ensures CartTotal(lines, products) >= MinUnitPrice * |lines|
  {
    if lines != [] {
      assert lines[0] in lines;
      var price := products[lines[0].product].unitPrice;
      assert lines[0].quantity * price >= price by {
        assert lines[0].quantity >= 1 && price >= 0;
      }
      CartTotalAtLeast(lines[1..], products);
    }
  }

  /**
   * The cart total sums over `cart.items.all()`, a query without an order:
   * any order of the same lines gives the same total.
   */
  lemma {:induction false} CartTotalPermutation(a: seq<CartItem>, b: seq<CartItem>, products: map<ProductId, Product>)
    requires InCatalog(a, products) && multiset(a) == multiset(b)
    ensures InCatalog(b, products)
    ensures CartTotal(a, products) == CartTotal(b, products)
    decreases |a|
  {
    forall x | x in b ensures x.product in products {
      assert x in multiset(a);
    }
    if a != [] {
      assert a[0] in multiset(b);
      var j :| 0 <= j < |b| && b[j] == a[0];
      RemoveAtMultiset(b, j);
      assert a == [a[0]] + a[1..];
      assert multiset(a[1..]) == multiset(a) - multiset{a[0]};
      assert InCatalog(a[1..], products) by {
        forall y | y in a[1..] ensures y.product in products { assert y in a; }
      }
      CartTotalPermutation(a[1..], RemoveAt(b, j), products);
      RemoveAtTotal(b, j, products);
      assert a[0] in a;
    }
  }

  lemma RemoveAtMultiset(lines: seq<CartItem>, i: nat)
    requires i < |lines|
    ensures multiset(RemoveAt(lines, i)) == multiset(lines) - multiset{lines[i]}
  {
    assert lines == lines[..i] + [lines[i]] + lines[i + 1..];
  }

  /** The cascade of a product delete: every line for `p` goes, the rest stay in order. */
  function WithoutProduct(lines: seq<CartItem>, p: ProductId): (r: seq<CartItem>)
    ensures forall x :: x in r <==> x in lines && x.product != p
  {
    if lines == [] then []
    else
      assert forall x :: x in lines <==> x == lines[0] || x in lines[1..];
      if lines[0].product == p then WithoutProduct(lines[1..], p)
      else [lines[0]] + WithoutProduct(lines[1..], p)
  }

  /** Dropping lines keeps any key that was distinct distinct. */
  lemma {:induction false} WithoutProductKeepsDistinct(lines: seq<CartItem>, p: ProductId, key: CartItem -> nat)
    requires Distinct(lines, key)
    ensures Distinct(WithoutProduct(lines, p), key)
  {
    if lines != [] {
      var rest := WithoutProduct(lines[1..], p);
      WithoutProductKeepsDistinct(lines[1..], p, key);
      if lines[0].product != p {
        var r := [lines[0]] + rest;
        forall i, j | 0 <= i < j < |r| ensures key(r[i]) != key(r[j]) {
          if i == 0 {
            assert r[j] in rest;
            var k :| 0 <= k < |lines[1..]| && lines[1..][k] == r[j];
            assert lines[k + 1] == r[j];
          } else {
            assert r[i] == rest[i - 1] && r[j] == rest[j - 1];
          }
        }
      }
    }
  }

  /** The cascade leaves a valid cart valid, within the catalog minus the deleted product. */
  lemma WithoutProductKeepsLines(lines: seq<CartItem>, p: ProductId, products: map<ProductId, Product>, bound: nat)
    requires ValidLines(lines) && InCatalog(lines, products) && IdsBelow(lines, bound)
    ensures ValidLines(WithoutProduct(lines, p))
    ensures InCatalog(WithoutProduct(lines, p), products - {p})
    ensures IdsBelow(WithoutProduct(lines, p), bound)
    ensures !HasProduct(WithoutProduct(lines, p), p)
  {
    WithoutProductKeepsDistinct(lines, p, ProductKey);
    WithoutProductKeepsDistinct(lines, p, IdKey);
  }

  /** The line with primary key `id`, the lookup `get(pk=…)` within one cart. */
  function FindItem(lines: seq<CartItem>, id: CartItemId): (r: Option<nat>)
    ensures r.Some? ==> r.value < |lines| && lines[r.value].id == id
    ensures r.None? <==> forall x :: x in lines ==> x.id != id
  {
    if lines == [] then None
    else if lines[0].id == id then Some(0)
    else
      match FindItem(lines[1..], id)
      case None =>
        assert forall x :: x in lines ==> x == lines[0] || x in lines[1..];
        None
      case Some(i) => Some(i + 1)
  }

  /** With one line per id, the lookup finds exactly the line that has it. */
  lemma FindItemUnique(lines: seq<CartItem>, id: CartItemId, i: nat)
    requires UniqueIds(lines)
    requires i < |lines| && lines[i].id == id
    ensures FindItem(lines, id) == Some(i)
  {
    assert lines[i] in lines;
    var k := FindItem(lines, id).value;
    assert IdKey(lines[i]) == IdKey(lines[k]);
  }

  /** The new quantity of line `i`, as UpdateCartItemSerializer writes it. */
  function SetQuantity(lines: seq<CartItem>, i: nat, q: int): (r: seq<CartItem>)
    requires i < |lines|
    ensures |r| == |lines|
    ensures r[i].id == lines[i].id && r[i].product == lines[i].product && r[i].quantity == q
    ensures forall j :: 0 <= j < |lines| && j != i ==> r[j] == lines[j]
  {
    lines[i := lines[i].(quantity := q)]
  }

  lemma SetQuantityKeepsLines(lines: seq<CartItem>, i: nat, q: int, products: map<ProductId, Product>, bound: nat)
    requires ValidLines(lines) && InCatalog(lines, products) && IdsBelow(lines, bound)
    requires i < |lines| && ValidQuantity(q)
    ensures ValidLines(SetQuantity(lines, i, q))
    ensures InCatalog(SetQuantity(lines, i, q), products)
    ensures IdsBelow(SetQuantity(lines, i, q), bound)
    ensures CartTotal(SetQuantity(lines, i, q), products)
         == CartTotal(lines, products) + (q - lines[i].quantity) * products[lines[i].product].unitPrice
  {
    SetQuantityKeepsKeys(lines, i, q, products, bound);
    assert lines[i] in lines;
    CartTotalUpdate(lines, i, lines[i].(quantity := q), products);
  }

  lemma SetQuantityKeepsKeys(lines: seq<CartItem>, i: nat, q: int, products: map<ProductId, Product>, bound: nat)
    requires ValidLines(lines) && InCatalog(lines, products) && IdsBelow(lines, bound)
    requires i < |lines| && ValidQuantity(q)
    ensures ValidLines(SetQuantity(lines, i, q))
    ensures InCatalog(SetQuantity(lines, i, q), products)
    ensures IdsBelow(SetQuantity(lines, i, q), bound)
  {
    var r := SetQuantity(lines, i, q);
    assert forall j :: 0 <= j < |r| ==> r[j].id == lines[j].id && r[j].product == lines[j].product;
    forall x | x in r
      ensures ValidQuantity(x.quantity) && x.product in products && x.id < bound
    {
      var j :| 0 <= j < |r| && r[j] == x;
      assert lines[j] in lines;
    }
  }

  /** Line `i` deleted, the others kept in order. */
  function RemoveAt(lines: seq<CartItem>, i: nat): (r: seq<CartItem>)
    requires i < |lines|
    ensures |r| == |lines| - 1
  {
    lines[..i] + lines[i + 1..]
  }

  /** The lines `RemoveAt` keeps are the lines that were there, except line `i`. */
  lemma RemoveAtElements(lines: seq<CartItem>, i: nat)
    requires i < |lines|
    ensures forall k :: 0 <= k < |RemoveAt(lines, i)| ==>
              RemoveAt(lines, i)[k] == lines[if k < i then k else k + 1]
    ensures forall x :: x in RemoveAt(lines, i) ==> x in lines
    ensures forall k :: 0 <= k < |lines| && k != i ==> lines[k] in RemoveAt(lines, i)
  {
    var r := RemoveAt(lines, i);
    forall k | 0 <= k < |lines| && k != i ensures lines[k] in r {
      if k < i { assert r[k] == lines[k]; } else { assert r[k - 1] == lines[k]; }
    }
  }

  lemma RemoveAtKeepsDistinct(lines: seq<CartItem>, i: nat, key: CartItem -> nat)
    requires Distinct(lines, key) && i < |lines|
    ensures Distinct(RemoveAt(lines, i), key)
    ensures forall x :: x in RemoveAt(lines, i) ==> key(x) != key(lines[i])
  {
    var r := RemoveAt(lines, i);
    RemoveAtElements(lines, i);
    forall a, b | 0 <= a < b < |r| ensures key(r[a]) != key(r[b]) {
      var a' := if a < i then a else a + 1;
      var b' := if b < i then b else b + 1;
      assert r[a] == lines[a'] && r[b] == lines[b'];
    }
    forall x | x in r ensures key(x) != key(lines[i]) {
      var k :| 0 <= k < |r| && r[k] == x;
      assert x == lines[if k < i then k else k + 1];
    }
  }

  /** Deleting the line with primary key `id` leaves exactly the other lines. */
  lemma RemoveAtKeepsLines(lines: seq<CartItem>, i: nat, products: map<ProductId, Product>, bound: nat)
    requires ValidLines(lines) && InCatalog(lines, products) && IdsBelow(lines, bound)
    requires i < |lines|
    ensures ValidLines(RemoveAt(lines, i))
    ensures InCatalog(RemoveAt(lines, i), products)
    ensures IdsBelow(RemoveAt(lines, i), bound)
    ensures forall x :: x in RemoveAt(lines, i) <==> x in lines && x.id != lines[i].id
  {
    var r := RemoveAt(lines, i);
    RemoveAtElements(lines, i);
    RemoveAtKeepsDistinct(lines, i, ProductKey);
    RemoveAtKeepsDistinct(lines, i, IdKey);
    forall x | x in lines && x.id != lines[i].id ensures x in r {
      var k :| 0 <= k < |lines| && lines[k] == x;
    }
  }

  lemma {:induction false} RemoveAtTotal(lines: seq<CartItem>, i: nat, products: map<ProductId, Product>)
    requires InCatalog(lines, products) && i < |lines|
    ensures InCatalog(RemoveAt(lines, i), products)
    ensures CartTotal(RemoveAt(lines, i), products) == CartTotal(lines, products) - LineTotal(lines[i], products)
  {
    var r := RemoveAt(lines, i);
    assert lines[i] in lines;
    RemoveAtElements(lines, i);
    if i == 0 {
      assert r == lines[1..];
    } else {
      assert r[0] == lines[0];
      assert r[1..] == RemoveAt(lines[1..], i - 1);
      RemoveAtTotal(lines[1..], i - 1, products);
    }
  }

  /** Placing an order copies each line with the product's price at that moment. */
  function FreezeLines(lines: seq<CartItem>, products: map<ProductId, Product>): (r: seq<OrderItem>)
    requires InCatalog(lines, products)
    ensures |r| == |lines|
    ensures forall i :: 0 <= i < |lines| ==>
              && r[i].product == lines[i].product
              && r[i].quantity == lines[i].quantity
              && r[i].unitPrice == products[lines[i].product].unitPrice
  {
    if lines == [] then []
    else
      assert lines[0] in lines;
      [OrderItem(lines[0].product, lines[0].quantity, products[lines[0].product].unitPrice)]
        + FreezeLines(lines[1..], products)
  }

  /** What an order's lines come to at their frozen prices. */
  function OrderTotal(items: seq<OrderItem>): (r: int)
    ensures (forall x :: x in items ==> ValidOrderItem(x)) ==> r >= 0
  {
    if items == [] then 0
    else
      assert forall x :: x in items[1..] ==> x in items;
      assert items[0] in items;
      items[0].quantity * items[0].unitPrice + OrderTotal(items[1..])
  }

  /** At the moment of placement the order is worth exactly what the cart was. */
  lemma {:induction false} FrozenTotal(lines: seq<CartItem>, products: map<ProductId, Product>)
    requires InCatalog(lines, products)
    ensures OrderTotal(FreezeLines(lines, products)) == CartTotal(lines, products)
  {
    if lines != [] {
      assert FreezeLines(lines, products)[1..] == FreezeLines(lines[1..], products);
      FrozenTotal(lines[1..], products);
    }
  }

  /** Frozen lines of a valid cart at valid prices are valid order lines. */
  lemma FreezeValid(lines: seq<CartItem>, products: map<ProductId, Product>)
    requires InCatalog(lines, products) && QuantitiesValid(lines)
    requires forall p :: p in products ==> ValidProduct(products[p])
    ensures forall x :: x in FreezeLines(lines, products) ==> ValidOrderItem(x) && x.product in products
  {
    var r := FreezeLines(lines, products);
    forall x | x in r ensures ValidOrderItem(x) && x.product in products {
      var i :| 0 <= i < |r| && r[i] == x;
      assert lines[i] in lines;
    }
  }
}
